/**
 * The service manager: a builder that holds default credentials and timeouts
 * and hands out services with those defaults applied.
 */
module Pingdom {
  import opened Wrappers
  import opened Services
  import opened Defaults

  class ServiceManager {
    var appKeyValue: Option<string>
    var email: Option<string>
    var password: Option<string>
    var connectionTimeout: Option<Int32>
    var readTimeout: Option<Int32>

    /** The defaults this manager currently holds. */
    function Current(): Config
      reads this
    {
      Config(appKeyValue, email, password, connectionTimeout, readTimeout)
    }

    /** A new manager, with no default set. */
    constructor ()
      ensures Current() == Unset
    {
      appKeyValue, email, password := None, None, None;
      connectionTimeout, readTimeout := None, None;
    }

    /** Store default credentials (either may be null); returns this manager for chaining. */
    method SetAuthentication(email: Option<string>, password: Option<string>) returns (r: ServiceManager)
      modifies this
      ensures r == this
      ensures Current() == Step(old(Current()), SetterCall.SetAuthentication(email, password))
    {
      this.email := email;
      this.password := password;
      r := this;
    }

    /** Store the default API key (null clears it); returns this manager for chaining. */
    method SetAppKey(value: Option<string>) returns (r: ServiceManager)
      modifies this
      ensures r == this
      ensures Current() == Step(old(Current()), SetterCall.SetAppKey(value))
    {
      appKeyValue := value;
      r := this;
    }

    /** Store the default connection timeout, unvalidated; returns this manager for chaining. */
    method SetConnectionTimeout(millis: Int32) returns (r: ServiceManager)
      modifies this
      ensures r == this
      ensures Current() == Step(old(Current()), SetterCall.SetConnectionTimeout(millis))
    {
      connectionTimeout := Some(millis);
      r := this;
    }

    /** Store the default read timeout, unvalidated; returns this manager for chaining. */
    method SetReadTimeout(millis: Int32) returns (r: ServiceManager)
      modifies this
      ensures r == this
      ensures Current() == Step(old(Current()), SetterCall.SetReadTimeout(millis))
    {
      readTimeout := Some(millis);
      r := this;
    }

    /** Apply every default that is set to `service`, through the service's own setters. */
    method SetupService(service: Service)
      modifies service
      ensures service.Current() == Setup(Current(), old(service.Current()))
    {
      if appKeyValue.Some? {
        service.SetAppKey(appKeyValue.value);
      }
      if email.Some? && password.Some? {
        service.SetAuthentication(email.value, password.value);
      }
      if connectionTimeout.Some? {
        service.SetConnectTimeout(connectionTimeout.value);
      }
      if readTimeout.Some? {
        service.SetReadTimeout(readTimeout.value);
      }
    }

    /**
     * The factory method shared by all seventeen service kinds: a fresh service
     * whose own defaults are `own`, with this manager's defaults applied. The
     * manager itself is left as it was and keeps no reference to the service.
     */
    method CreateService(kind: ServiceKind, own: Settings) returns (service: Service)
      ensures fresh(service) && service.kind == kind
      ensures service.Current() == Setup(Current(), own)
      ensures Current() == old(Current())
    {
      service := NewService(kind, own);
      SetupService(service);
    }

    /** A fresh service with only the defaults its own class installs, bypassing the manager. */
    static method NewService(kind: ServiceKind, own: Settings) returns (service: Service)
      ensures fresh(service) && service.kind == kind
      ensures service.Current() == own
    {
      service := new Service(kind, own);
    }
  }

  /**
   * Two services of one kind created in a row, with no setter call between them,
   * are distinct objects configured identically.
   */
  method CreateTwice(m: ServiceManager, kind: ServiceKind, own: Settings) returns (a: Service, b: Service)
    ensures a != b && a.kind == kind && b.kind == kind
    ensures a.Current() == b.Current() == Setup(m.Current(), own)
  {
    a := m.CreateService(kind, own);
    b := m.CreateService(kind, own);
  }

  /**
   * A setter call made after a service was created does not reach that service;
   * only services created afterwards see the new defaults. The manager is the
   * only object the call changes.
   */
  method CreateThenReconfigure(m: ServiceManager, kind: ServiceKind, own: Settings, call: SetterCall)
    returns (before: Service, after: Service)
    modifies m
    ensures m.Current() == Step(old(m.Current()), call)
    ensures before.Current() == Setup(old(m.Current()), own)
    ensures after.Current() == Setup(m.Current(), own)
  {
    before := m.CreateService(kind, own);
    var chained: ServiceManager;
    match call {
      case SetAuthentication(e, p) => chained := m.SetAuthentication(e, p);
      case SetAppKey(v) => chained := m.SetAppKey(v);
      case SetConnectionTimeout(t) => chained := m.SetConnectionTimeout(t);
      case SetReadTimeout(t) => chained := m.SetReadTimeout(t);
    }
    after := chained.CreateService(kind, own);
  }

  /**
   * A check service from a manager given API key "K1" and a 5000 ms connection
   * timeout: it carries both, and its read timeout and credentials are its own.
   */
  method CheckServiceExample(own: Settings) returns (service: Service)
    ensures service.kind == CheckService
    ensures service.appKey == Some("K1") && service.connectTimeout == 5000
    ensures service.readTimeout == own.readTimeout
    ensures service.email == own.email && service.password == own.password
  {
    var m := new ServiceManager();
    var chained := m.SetAppKey(Some("K1"));
    chained := chained.SetConnectionTimeout(5000);
    service := chained.CreateService(CheckService, own);
  }

  /** Credentials with a null half are never applied, while a full pair is. */
  method HalfCredentialsExample(own: Settings) returns (partial: Service, full: Service)
    ensures partial.email == own.email && partial.password == own.password
    ensures full.email == Some("ops@example.com") && full.password == Some("secret")
  {
    var m := new ServiceManager();
    var chained := m.SetAuthentication(Some("ops@example.com"), None);
    partial := chained.CreateService(CheckService, own);
    chained := chained.SetAuthentication(Some("ops@example.com"), Some("secret"));
    full := chained.CreateService(CheckService, own);
  }
}
