/**
 * The DSN line of the start-up log: the DSN with the configured password
 * replaced by `***` through `strings.Replace(dsn, password, "***", 1)`.
 * Only the first occurrence of the password text is masked, wherever it is.
 */
module Redaction {
  import opened GoStrings
  import opened Config

  const Mask := "***"

  /**
   * The DSN as it is written to the start-up log. The password field always
   * holds the password text, so exactly one occurrence is masked: the first,
   * which is the password field itself or lies before it.
   */
  function RedactedDSN(env: Env): (r: string)
    ensures var dsn, k := Load(env).mysqlDSN, Index(Load(env).mysqlDSN, Password(env));
            0 <= k <= |User(env)| + 1 && r == dsn[..k] + Mask + dsn[k + |Password(env)|..]
  {
    MaskFirstInDSN(env);
    ReplaceFirst(Load(env).mysqlDSN, Password(env), Mask)
  }

  // Helper for RedactedDSN: the replacement lands on the first occurrence of
  // the password, which is at the password field or before it.
  lemma MaskFirstInDSN(env: Env)
    ensures var dsn, k := Load(env).mysqlDSN, Index(Load(env).mysqlDSN, Password(env));
            0 <= k <= |User(env)| + 1 && ReplaceFirst(dsn, Password(env), Mask) == dsn[..k] + Mask + dsn[k + |Password(env)|..]
  {
    PasswordInDSN(env);
    ReplaceFirstNoLaterThan(Load(env).mysqlDSN, Password(env), Mask, |User(env)| + 1);
  }

  /** The configured DSN holds the password right after the user name and its ':'. */
  lemma PasswordInDSN(env: Env)
    ensures OccursAt(Load(env).mysqlDSN, Password(env), |User(env)| + 1)
  {
    var user, pass := User(env), Password(env);
    var d := DSN(user, pass, Host(env), Port(env), Database(env));
    assert d[|user| + 1..|user| + 1 + |pass|] == pass;
  }

  /** The password field of a DSN-shaped text holds the password. */
  lemma PasswordFieldAt(user: string, pass: string, tail: string)
    ensures OccursAt(user + ":" + pass + tail, pass, |user| + 1)
  {
    assert (user + ":" + pass + tail)[|user| + 1..|user| + 1 + |pass|] == pass;
  }

  /**
   * With an empty password (the default) nothing is hidden and the mask is
   * put in front of the DSN.
   */
  lemma RedactEmptyPassword(env: Env)
    requires Password(env) == ""
    ensures RedactedDSN(env) == Mask + Load(env).mysqlDSN
  {
    ReplaceEmptyPattern(Load(env).mysqlDSN, Mask);
  }

  /** With none of the seven variables set, the log line is `***mangos_monitor:@tcp(localhost:3306)/character0`. */
  lemma RedactDefault(env: Env)
    requires NoOverrides(env)
    ensures RedactedDSN(env) == "***" + "mangos_monitor:@tcp(localhost:3306)/character0"
  {
    RedactEmptyPassword(env);
    DefaultSettings(env);
  }

  /**
   * When the first place the password text appears is the password field
   * itself, the field is masked and everything else is logged as it is.
   */
  lemma {:induction false} MaskPasswordField(user: string, pass: string, tail: string)
    requires FirstOccurrence(user + ":" + pass, pass, |user| + 1)
    ensures ReplaceFirst(user + ":" + pass + tail, pass, Mask) == user + ":" + Mask + tail
  {
    var field := user + ":" + pass;
    assert field[..|user| + 1] == user + ":" && field[|user| + 1 + |pass|..] == "";
    ReplaceFirstAt(field, pass, Mask, |user| + 1, user + ":" + Mask);
    ReplaceFirstInPrefix(field, tail, pass, Mask, |user| + 1);
  }

  /** `MaskPasswordField` for the configured DSN. */
  lemma RedactPasswordField(env: Env)
    requires FirstOccurrence(User(env) + ":" + Password(env), Password(env), |User(env)| + 1)
    ensures RedactedDSN(env) == DSN(User(env), Mask, Host(env), Port(env), Database(env))
  {
    MaskPasswordField(User(env), Password(env), Address(Host(env), Port(env), Database(env)));
  }

  /**
   * When the password text also occurs inside the user name, that earlier
   * occurrence is the one masked, and the password field is logged in clear.
   */
  lemma {:induction false} MaskUserFirst(user: string, pass: string, tail: string, i: nat)
    requires FirstOccurrence(user, pass, i)
    ensures ReplaceFirst(user + ":" + pass + tail, pass, Mask)
         == (user[..i] + Mask + user[i + |pass|..]) + ":" + pass + tail
  {
    ReplaceFirstInPrefixAt(user, ":" + pass + tail, pass, Mask, i,
      user + ":" + pass + tail, (user[..i] + Mask + user[i + |pass|..]) + ":" + pass + tail);
  }

  /** Whatever precedes it, the password field shows the password. */
  lemma PasswordFieldShown(before: string, pass: string, tail: string)
    ensures Contains(before + ":" + pass + tail, pass)
  {
    PasswordFieldAt(before, pass, tail);
    ContainsAt(before + ":" + pass + tail, pass, |before| + 1);
  }

  /** `MaskUserFirst` for the configured DSN: the occurrence in the user name is the one masked. */
  lemma RedactMasksUserFirst(env: Env, i: nat)
    requires FirstOccurrence(User(env), Password(env), i)
    ensures RedactedDSN(env)
         == DSN(User(env)[..i] + Mask + User(env)[i + |Password(env)|..], Password(env), Host(env), Port(env), Database(env))
  {
    MaskUserFirst(User(env), Password(env), Address(Host(env), Port(env), Database(env)), i);
  }

  /** When the user name contains the password, the logged DSN still shows the password. */
  lemma RedactShowsPassword(env: Env, i: nat)
    requires FirstOccurrence(User(env), Password(env), i)
    ensures Contains(RedactedDSN(env), Password(env))
  {
    var user, pass, address := User(env), Password(env), Address(Host(env), Port(env), Database(env));
    PasswordFieldShown(user[..i] + Mask + user[i + |pass|..], pass, address);
    MaskUserFirst(user, pass, address, i);
  }

  /**
   * A concrete case: user `monitor`, password `mon`, any address part. The
   * log line masks the start of the user name and shows the password:
   * `***itor:mon@tcp(...)/...`.
   */
  lemma RedactLeakExample(address: string)
    ensures ReplaceFirst("monitor" + ":" + "mon" + address, "mon", Mask) == "***itor" + ":" + "mon" + address
  {
    assert "monitor"[0..3] == "mon";
    assert FirstOccurrence("monitor", "mon", 0);
    MaskUserFirst("monitor", "mon", address, 0);
    assert "monitor"[..0] + Mask + "monitor"[3..] == "***itor";
  }
}
