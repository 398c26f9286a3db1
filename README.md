# Pingdom service manager, modelled in Dafny

The Pingdom Java client builds its per-resource services (checks, probes,
reports, contacts, results, …) through a `ServiceManager`. The manager holds
five optional defaults: an API key, an email, a password, a connection timeout
and a read timeout. Chained setters store them. Each `xxxService()` factory
method builds a fresh service and runs `setupService`, which copies onto the
service every default that is set. The credentials are copied only when both
the email and the password are non-null.

This project models that manager and proves what it promises:

- a set default is copied onto a new service;
- an unset default leaves the service's own value;
- the credentials are applied both-or-neither;
- each setter writes only its own fields, and the last write wins;
- creating a service does not change the manager;
- setter calls made after a service was created do not reach that service.

Files:

- `wrappers.dfy` (module `Wrappers`): `Option`, which stands for a Java
  reference or boxed `Integer` that may be null.
- `services.dfy` (module `Services`): the service side. `Int32` is a Java
  `int`. `ServiceKind` lists the seventeen service classes. `Settings` is a
  service's five configurable fields as a value. `Service` is a class with those
  fields and the four setters the manager calls.
- `defaults.dfy` (module `Defaults`): the manager's fields as a value (`Config`)
  and the setter calls as data (`SetterCall`). `Step` and `Run` apply one call
  or a sequence of calls. `Setup` is the specification of `setupService`. The
  lemmas here relate what the setters store to what a created service receives.
- `service_manager.dfy` (module `Pingdom`): the `ServiceManager` class. Its
  setters are proved against `Step`, and `SetupService` and the generic factory
  `CreateService` against `Setup`. The manager-free `NewService` returns a
  service holding only its class's own defaults. A few client methods state the
  factory's guarantees about distinct service objects.

Java `null` and an unset boxed `Integer` are `None`. The timeouts are Java `int`
values and are stored without validation, so zero and negative values are kept
as given. The Javadoc gives the timeouts in milliseconds and sets no bound; any
`int` is stored as given.

The defaults a new service holds are installed by the service constructors,
which are not shown. The model takes them as the parameter `own: Settings` of
`NewService` and `CreateService`, so nothing is assumed about their values.

## Model

| member | source | states |
|---|---|---|
| `Defaults.Step` | src/main/java/com/jakewharton/pingdom/ServiceManager.java:50-87 | each setter stores its arguments as given (null strings, zero or negative timeouts) in its own fields, and every other field keeps its value |
| `Defaults.RunYieldsLastWrite` | src/main/java/com/jakewharton/pingdom/ServiceManager.java:28-87 | after any sequence of setter calls, each field holds what the last call writing it stored; a field no call wrote is unchanged |
| `Defaults.Setup` | src/main/java/com/jakewharton/pingdom/ServiceManager.java:94-107 | a set API key or timeout overwrites the service's value and an unset one leaves it; the email and password are applied only when both are set, otherwise both stay as they were |
| `Defaults.CreatedServiceAppKey` | src/main/java/com/jakewharton/pingdom/ServiceManager.java:62-97 | a service created after a sequence of setter calls gets the key of the last `setAppKey` call; if that call passed null, or no call set a key, the service keeps its own |
| `Defaults.CreatedServiceCredentials` | src/main/java/com/jakewharton/pingdom/ServiceManager.java:50-100 | a service created after a sequence of setter calls gets the pair from the last `setAuthentication` call if both halves are non-null, and otherwise keeps its own email and password |
| `Defaults.CreatedServiceTimeouts` | src/main/java/com/jakewharton/pingdom/ServiceManager.java:73-106 | a service created after a sequence of setter calls gets each timeout from the last call that set it, or keeps its own when no call did |
| `Services.Service.constructor` | src/main/java/com/jakewharton/pingdom/ServiceManager.java:302-304 | a new service holds exactly the defaults its class installs |
| `Services.Service.SetAppKey` | src/main/java/com/jakewharton/pingdom/ServiceManager.java:96 | the service's API key becomes the given key; nothing else changes |
| `Services.Service.SetAuthentication` | src/main/java/com/jakewharton/pingdom/ServiceManager.java:99 | the service's email and password become the given pair; nothing else changes |
| `Services.Service.SetConnectTimeout` | src/main/java/com/jakewharton/pingdom/ServiceManager.java:102 | the service's connect timeout becomes the given value; nothing else changes |
| `Services.Service.SetReadTimeout` | src/main/java/com/jakewharton/pingdom/ServiceManager.java:105 | the service's read timeout becomes the given value; nothing else changes |
| `Pingdom.ServiceManager.constructor` | src/main/java/com/jakewharton/pingdom/ServiceManager.java:27-40 | a new manager has all five defaults unset |
| `Pingdom.ServiceManager.SetAuthentication` | src/main/java/com/jakewharton/pingdom/ServiceManager.java:50-54 | stores the email and password (either may be null), leaves the API key and timeouts alone, returns the same manager |
| `Pingdom.ServiceManager.SetAppKey` | src/main/java/com/jakewharton/pingdom/ServiceManager.java:62-65 | stores the API key (null clears it), leaves the other fields alone, returns the same manager |
| `Pingdom.ServiceManager.SetConnectionTimeout` | src/main/java/com/jakewharton/pingdom/ServiceManager.java:73-76 | stores any `int` as the connection timeout, leaves the other fields alone, returns the same manager |
| `Pingdom.ServiceManager.SetReadTimeout` | src/main/java/com/jakewharton/pingdom/ServiceManager.java:84-87 | stores any `int` as the read timeout, leaves the other fields alone, returns the same manager |
| `Pingdom.ServiceManager.SetupService` | src/main/java/com/jakewharton/pingdom/ServiceManager.java:94-107 | changes only the service, which ends up as `Setup` of the manager's defaults and its previous state; the manager is not modified |
| `Pingdom.ServiceManager.CreateService` | src/main/java/com/jakewharton/pingdom/ServiceManager.java:114-118 | returns a fresh service of the requested kind: its class's own defaults with the manager's set defaults applied; the manager's state is unchanged |
| `Pingdom.ServiceManager.NewService` | src/main/java/com/jakewharton/pingdom/ServiceManager.java:302-304 | returns a fresh service of the requested kind that holds only its class's own defaults |
| `Pingdom.CreateTwice` | src/main/java/com/jakewharton/pingdom/ServiceManager.java:114-118 | two creations with no setter call in between give distinct services with identical configuration |
| `Pingdom.CreateThenReconfigure` | src/main/java/com/jakewharton/pingdom/ServiceManager.java:114-118 | a setter call after a creation leaves the earlier service as it was created; a later service reflects the new defaults |
| `Pingdom.CheckServiceExample` | src/main/java/com/jakewharton/pingdom/ServiceManager.java:136-140 | after `setAppKey("K1")` and `setConnectionTimeout(5000)`, a check service carries that key and timeout, and keeps its own read timeout and credentials |
| `Pingdom.HalfCredentialsExample` | src/main/java/com/jakewharton/pingdom/ServiceManager.java:98-100 | with a null password the service keeps its own credentials; with both halves set it receives them |

## Left out

- The seventeen `xxxService()` / `newXxxService()` pairs (ServiceManager.java:114-448) are modelled by one generic `CreateService` / `NewService` that takes a `ServiceKind`. The pairs differ only in the class they instantiate.
- `PingdomApiService` and the concrete service classes are not part of this model. They build HTTP requests, send authentication headers and decode JSON, which is network I/O. A service is modelled only as its five configurable fields with simple setters. The defaults its constructor installs become the `own` parameter.
- `Services.Service.SetAppKey`, `SetAuthentication`, `SetConnectTimeout` and `SetReadTimeout`: modelled as plain field stores. Whatever else the real setters in `PingdomApiService` do is not visible, so call order inside `setupService` is kept but its effect on anything besides these fields is not modelled.
- The entity classes, such as `entities/ReportShared.java`, are not modelled. They are flat data-transfer objects with plain getters. Their `@Since` annotations are deserializer metadata with no behaviour.
- `Services.Settings`: a service's own connect and read timeouts are modelled as always set (`Int32`, never unset), since the service classes that hold them are not shown.
- Timeout semantics are not modelled. The timeouts are opaque `int` values handed to the transport.
- Thread safety is not modelled. The manager has no locking, and the model is sequential.
