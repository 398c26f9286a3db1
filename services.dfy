/**
 * The service side of the factory: the part of a Pingdom API service that the
 * manager configures. Every concrete service accepts an API key, an
 * email/password pair and two timeouts; its request methods are not modelled.
 */
module Services {
  import opened Wrappers

  /** A Java `int`. */
  newtype Int32 = x: int | -0x8000_0000 <= x < 0x8000_0000

  /** The seventeen service classes the manager can build. */
  datatype ServiceKind =
    | ActionsService | AnalysisService | CheckService | ContactService
    | ProbeService | ReferenceService | ReportsEmailService | ReportsPublicService
    | ReportsSharedService | ResultsService | ServerTimeService | SettingsService
    | SummaryAverageService | SummaryOutageService | SummaryPerformanceService
    | SummaryProbeService | TraceRouteService

  /** The configurable state of a service, as a value. A missing string is a Java null. */
  datatype Settings = Settings(
    appKey: Option<string>,
    email: Option<string>,
    password: Option<string>,
    connectTimeout: Int32,
    readTimeout: Int32)
  {
    function WithAppKey(value: string): Settings {
      this.(appKey := Some(value))
    }

    function WithAuthentication(email: string, password: string): Settings {
      this.(email := Some(email), password := Some(password))
    }

    function WithConnectTimeout(millis: Int32): Settings {
      this.(connectTimeout := millis)
    }

    function WithReadTimeout(millis: Int32): Settings {
      this.(readTimeout := millis)
    }
  }

  /** A service instance: a bag of five configurable fields with simple setters. */
  class Service {
    const kind: ServiceKind
    var appKey: Option<string>
    var email: Option<string>
    var password: Option<string>
    var connectTimeout: Int32
    var readTimeout: Int32

    /** The current configuration of this service. */
    function Current(): Settings
      reads this
    {
      Settings(appKey, email, password, connectTimeout, readTimeout)
    }

    /** A new service of the given kind, holding the defaults `own` its class installs. */
    constructor (kind: ServiceKind, own: Settings)
      ensures this.kind == kind && Current() == own
    {
      this.kind := kind;
      appKey, email, password := own.appKey, own.email, own.password;
      connectTimeout, readTimeout := own.connectTimeout, own.readTimeout;
    }

    method SetAppKey(value: string)
      modifies this
      ensures Current() == old(Current()).WithAppKey(value)
    {
      appKey := Some(value);
    }

    method SetAuthentication(email: string, password: string)
      modifies this
      ensures Current() == old(Current()).WithAuthentication(email, password)
    {
      this.email, this.password := Some(email), Some(password);
    }

    method SetConnectTimeout(millis: Int32)
      modifies this
      ensures Current() == old(Current()).WithConnectTimeout(millis)
    {
      connectTimeout := millis;
    }

    method SetReadTimeout(millis: Int32)
      modifies this
      ensures Current() == old(Current()).WithReadTimeout(millis)
    {
      readTimeout := millis;
    }
  }
}
