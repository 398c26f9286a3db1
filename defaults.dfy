/**
 * The defaults a service manager holds, as values: the five optional fields,
 * the setter calls that change them, and `Setup`, the function that says what
 * a service looks like once those defaults have been applied to it.
 */
module Defaults {
  import opened Wrappers
  import opened Services

  /** The manager's five optional defaults; `None` is a field that was never set or was set to null. */
  datatype Config = Config(
    appKey: Option<string>,
    email: Option<string>,
    password: Option<string>,
    connectionTimeout: Option<Int32>,
    readTimeout: Option<Int32>)

  /** A freshly constructed manager: every field null. */
  const Unset: Config := Config(None, None, None, None, None)

  /** One call of a chained setter of the manager, with its arguments. */
  datatype SetterCall =
    | SetAuthentication(email: Option<string>, password: Option<string>)
    | SetAppKey(value: Option<string>)
    | SetConnectionTimeout(millis: Int32)
    | SetReadTimeout(millis: Int32)

  /** The manager's fields, named so that a setter's footprint can be stated once for all of them. */
  datatype Field = AppKeyField | EmailField | PasswordField | ConnectionTimeoutField | ReadTimeoutField

  /** What a field holds: a nullable string or a nullable integer. */
  datatype Value = Text(text: Option<string>) | Millis(millis: Option<Int32>)

  function Get(c: Config, f: Field): Value {
    match f
    case AppKeyField => Text(c.appKey)
    case EmailField => Text(c.email)
    case PasswordField => Text(c.password)
    case ConnectionTimeoutField => Millis(c.connectionTimeout)
    case ReadTimeoutField => Millis(c.readTimeout)
  }

  /** The value a setter call stores in field `f`, or `None` when the call does not write `f`. */
  function Stores(call: SetterCall, f: Field): Option<Value> {
    match (call, f)
    case (SetAuthentication(e, _), EmailField) => Some(Text(e))
    case (SetAuthentication(_, p), PasswordField) => Some(Text(p))
    case (SetAppKey(v), AppKeyField) => Some(Text(v))
    case (SetConnectionTimeout(t), ConnectionTimeoutField) => Some(Millis(Some(t)))
    case (SetReadTimeout(t), ReadTimeoutField) => Some(Millis(Some(t)))
    case _ => None
  }

  /**
   * The effect of one setter call on the manager's fields. Each setter stores
   * its arguments unvalidated (a null string, a zero or negative timeout) in its
   * own fields and leaves every other field as it was.
   */
  function Step(c: Config, call: SetterCall): (r: Config)
    ensures forall f :: Get(r, f) == Stores(call, f).GetOr(Get(c, f))
  {
    match call
    case SetAuthentication(e, p) => c.(email := e, password := p)
    case SetAppKey(v) => c.(appKey := v)
    case SetConnectionTimeout(t) => c.(connectionTimeout := Some(t))
    case SetReadTimeout(t) => c.(readTimeout := Some(t))
  }

  /** The fields after a sequence of setter calls, applied in order. */
  function Run(c: Config, calls: seq<SetterCall>): Config
    decreases |calls|
  {
    if calls == [] then c else Step(Run(c, calls[..|calls| - 1]), calls[|calls| - 1])
  }

  /** Call `i` is the last call in `calls` that writes field `f`. */
  ghost predicate IsLastWrite(calls: seq<SetterCall>, f: Field, i: int) {
    0 <= i < |calls| && Stores(calls[i], f).Some? &&
    forall j :: i < j < |calls| ==> Stores(calls[j], f).None?
  }

  /** No call in `calls` writes field `f`. */
  ghost predicate NeverWritten(calls: seq<SetterCall>, f: Field) {
    forall i :: 0 <= i < |calls| ==> Stores(calls[i], f).None?
  }

  /**
   * Last write wins: after a sequence of setter calls every field holds what the
   * last call that wrote it stored, and a field no call wrote keeps its value.
   */
  lemma {:induction false} RunYieldsLastWrite(c: Config, calls: seq<SetterCall>, f: Field)
    ensures forall i :: IsLastWrite(calls, f, i) ==> Get(Run(c, calls), f) == Stores(calls[i], f).value
    ensures NeverWritten(calls, f) ==> Get(Run(c, calls), f) == Get(c, f)
  {
    if calls != [] {
      var n := |calls| - 1;
      var front := calls[..n];
      RunYieldsLastWrite(c, front, f);
      forall i | IsLastWrite(calls, f, i)
        ensures Get(Run(c, calls), f) == Stores(calls[i], f).value
      {
        if i < n {
          assert IsLastWrite(front, f, i) by {
            forall j | i < j < |front| ensures Stores(front[j], f).None? {
              assert front[j] == calls[j];
            }
          }
        }
      }
      if NeverWritten(calls, f) {
        assert Stores(calls[n], f).None?;
        assert NeverWritten(front, f) by {
          forall j | 0 <= j < |front| ensures Stores(front[j], f).None? {
            assert front[j] == calls[j];
          }
        }
      }
    }
  }

  /**
   * A service once the defaults `c` have been applied to it, in the order
   * `setupService` applies them: API key, then credentials, then connect timeout, then read timeout.
   * A default that is set overwrites the service's own value; one that is null
   * leaves that value alone; the credentials are applied only together.
   */
  function Setup(c: Config, s: Settings): (r: Settings)
    ensures r.appKey == if c.appKey.Some? then c.appKey else s.appKey
    ensures c.email.Some? && c.password.Some? ==> r.email == c.email && r.password == c.password
    ensures c.email.None? || c.password.None? ==> r.email == s.email && r.password == s.password
    ensures r.connectTimeout == c.connectionTimeout.GetOr(s.connectTimeout)
    ensures r.readTimeout == c.readTimeout.GetOr(s.readTimeout)
  {
    var s1 := if c.appKey.Some? then s.WithAppKey(c.appKey.value) else s;
    var s2 := if c.email.Some? && c.password.Some? then s1.WithAuthentication(c.email.value, c.password.value) else s1;
    var s3 := if c.connectionTimeout.Some? then s2.WithConnectTimeout(c.connectionTimeout.value) else s2;
    if c.readTimeout.Some? then s3.WithReadTimeout(c.readTimeout.value) else s3
  }

  /**
   * The API key of a service created after `calls` on a fresh manager: the key
   * of the last `SetAppKey` call, unless that call passed null, in which case
   * (as when no call set a key) the service keeps its own.
   */
  lemma {:induction false} CreatedServiceAppKey(calls: seq<SetterCall>, own: Settings)
    ensures forall i :: IsLastWrite(calls, AppKeyField, i) ==>
      Setup(Run(Unset, calls), own).appKey == if calls[i].value.Some? then calls[i].value else own.appKey
    ensures NeverWritten(calls, AppKeyField) ==> Setup(Run(Unset, calls), own).appKey == own.appKey
  {
    RunYieldsLastWrite(Unset, calls, AppKeyField);
  }

  /**
   * The credentials of a service created after `calls` on a fresh manager: the
   * pair given to the last `SetAuthentication` call if both are non-null, and
   * otherwise (or when no call set them) the service's own.
   */
  lemma {:induction false} CreatedServiceCredentials(calls: seq<SetterCall>, own: Settings)
    ensures forall i :: IsLastWrite(calls, EmailField, i) ==>
      var s := Setup(Run(Unset, calls), own);
      if calls[i].email.Some? && calls[i].password.Some?
      then s.email == calls[i].email && s.password == calls[i].password
      else s.email == own.email && s.password == own.password
    ensures NeverWritten(calls, EmailField) ==>
      Setup(Run(Unset, calls), own).email == own.email && Setup(Run(Unset, calls), own).password == own.password
  {
    RunYieldsLastWrite(Unset, calls, EmailField);
    RunYieldsLastWrite(Unset, calls, PasswordField);
    forall i | IsLastWrite(calls, EmailField, i) ensures IsLastWrite(calls, PasswordField, i) {
    }
    if NeverWritten(calls, EmailField) {
      assert NeverWritten(calls, PasswordField);
    }
  }

  /**
   * The timeouts of a service created after `calls` on a fresh manager: each is
   * the value of the last call that set it, or the service's own if none did.
   */
  lemma {:induction false} CreatedServiceTimeouts(calls: seq<SetterCall>, own: Settings)
    ensures forall i :: IsLastWrite(calls, ConnectionTimeoutField, i) ==>
      Setup(Run(Unset, calls), own).connectTimeout == calls[i].millis
    ensures NeverWritten(calls, ConnectionTimeoutField) ==>
      Setup(Run(Unset, calls), own).connectTimeout == own.connectTimeout
    ensures forall i :: IsLastWrite(calls, ReadTimeoutField, i) ==>
      Setup(Run(Unset, calls), own).readTimeout == calls[i].millis
    ensures NeverWritten(calls, ReadTimeoutField) ==>
      Setup(Run(Unset, calls), own).readTimeout == own.readTimeout
  {
    RunYieldsLastWrite(Unset, calls, ConnectionTimeoutField);
    RunYieldsLastWrite(Unset, calls, ReadTimeoutField);
  }
}
