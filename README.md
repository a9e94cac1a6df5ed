# TrinityCore console client: connection settings model

This project models `BaseClient`, the abstract base of the TrinityCore SOAP
console client. It holds five private properties: the server address
(default `127.0.0.1`), the server port (default `7878`), the username, the
password, and the SOAP client. The username and password start as `null`.
The client stays `null` until `createConnection` runs.

The model has four modules:

- `Wrappers`: `Option` (PHP `null`), `Result` and `Outcome` (PHP exceptions).
- `Decimal`: PHP's rendering of an `int` in a string context (`IntToDecimal`).
  Its partner `ParseInt` reads the rendering back. The two are proved inverse
  in both directions, so the rendering is injective.
- `Connection`: the option record handed to `\SoapClient` (`SoapOptions`). It
  also holds the location URL `http://<address>:<port>/` and its partner
  `ParseLocation`, which splits at the last colon. Building a location and
  parsing it back gives the address and port back, for every address, even one
  that contains colons (such as an IPv6 literal). Every accepted location is
  the one built from what was parsed.
- `Client`: the `validateSettings` rule over a snapshot of the four settings
  (`Validate`), and the class `BaseClient`. The class keeps the PHP properties
  as nullable fields. Its setters, constructor and `createConnection` are
  methods that assign them. `Valid()` states that no setting is null. The
  constructor establishes `Valid()` and every setter preserves it, so the
  constructor's call to `ValidateSettings` provably returns `Pass`.
  `UpToDate()` states that the client was built from the current settings.
  `CreateConnection` establishes it. A setter keeps the old client, so it stays
  up to date exactly when the new value equals the old one.

Validation rejects only `null` settings. An empty address, username or
password passes it, and the model keeps that behaviour.

## Model

| member | source | states |
|---|---|---|
| `Decimal.NatToDecimal` | src/TrinityCore/Abstracts/BaseClient.php:192 | the port's digits form a canonical decimal: non-empty, all digits, no leading zero; the result is "0" exactly for zero |
| `Decimal.IntToDecimal` | src/TrinityCore/Abstracts/BaseClient.php:192 | PHP's int-to-string conversion: a leading `-` exactly for negative ports, followed by digits only |
| `Decimal.ValueOfNatToDecimal` | src/TrinityCore/Abstracts/BaseClient.php:192 | reading back the digits of a rendered natural number gives that number |
| `Decimal.NatToDecimalOfValue` | src/TrinityCore/Abstracts/BaseClient.php:192 | every canonical digit string is the rendering of its own value |
| `Decimal.ParseIntOfDecimal` | src/TrinityCore/Abstracts/BaseClient.php:192 | `ParseInt(IntToDecimal(i)) == Some(i)` for every integer |
| `Decimal.DecimalOfParseInt` | src/TrinityCore/Abstracts/BaseClient.php:192 | every string `ParseInt` accepts is exactly `IntToDecimal` of the value read |
| `Decimal.IntToDecimalInjective` | src/TrinityCore/Abstracts/BaseClient.php:192 | distinct ports render to distinct strings |
| `Connection.NoColonInDecimal` | src/TrinityCore/Abstracts/BaseClient.php:192 | a rendered port never contains the `:` that separates it from the address |
| `Connection.LocationRoundTrip` | src/TrinityCore/Abstracts/BaseClient.php:192 | parsing `'http://' . address . ':' . port . '/'` returns exactly that address and port, for every address string |
| `Connection.LocationOfParse` | src/TrinityCore/Abstracts/BaseClient.php:192 | every location the parser accepts equals the location built from the address and port it returned |
| `Connection.ConnectionOptions` | src/TrinityCore/Abstracts/BaseClient.php:191-198 | the option record: its location parses back to the given address and port; uri `urn:TC`; login and password as given; RPC style; keep-alive off |
| `Connection.ConnectionOptionsInjective` | src/TrinityCore/Abstracts/BaseClient.php:189-199 | two option records are equal only when built from the same address, port, username and password, so changing any setting makes the old record stale |
| `Client.Validate` | src/TrinityCore/Abstracts/BaseClient.php:226-240 | fails exactly when some setting is null; the setting it names is null and every setting checked before it is non-null |
| `Client.CompleteSettingsValidate` | src/TrinityCore/Abstracts/BaseClient.php:226-240 | settings with all four fields present never fail validation |
| `Client.BaseClient.constructor` | src/TrinityCore/Abstracts/BaseClient.php:56-65 | after construction the username and password are the arguments, address and port keep their defaults, and the invariant holds; the client is the record built from those settings when `createNow`, and null otherwise |
| `Client.BaseClient.Create` | src/TrinityCore/Abstracts/BaseClient.php:215-220 | without the SOAP extension, construction throws the SoapException before any setting is stored; with it, the result is a fresh client in the constructor's state |
| `Client.BaseClient.GetServerAddress` | src/TrinityCore/Abstracts/BaseClient.php:70-73 | returns the stored address |
| `Client.BaseClient.GetAddress` | src/TrinityCore/Abstracts/BaseClient.php:152-155 | returns the same value as `GetServerAddress` |
| `Client.BaseClient.SetServerAddress` | src/TrinityCore/Abstracts/BaseClient.php:78-81 | sets only the address; the other settings and the existing client are unchanged; the invariant is preserved; an up-to-date client stays up to date exactly when the address did not change |
| `Client.BaseClient.SetAddress` | src/TrinityCore/Abstracts/BaseClient.php:142-146 | the same effect as `SetServerAddress`, and returns the same object |
| `Client.BaseClient.GetServerPort` | src/TrinityCore/Abstracts/BaseClient.php:86-89 | returns the stored port |
| `Client.BaseClient.GetPort` | src/TrinityCore/Abstracts/BaseClient.php:172-175 | returns the same value as `GetServerPort` |
| `Client.BaseClient.SetServerPort` | src/TrinityCore/Abstracts/BaseClient.php:94-97 | sets only the port; the other settings and the existing client are unchanged; the invariant is preserved; an up-to-date client stays up to date exactly when the port did not change |
| `Client.BaseClient.SetPort` | src/TrinityCore/Abstracts/BaseClient.php:162-166 | the same effect as `SetServerPort`, and returns the same object |
| `Client.BaseClient.SetUsername` | src/TrinityCore/Abstracts/BaseClient.php:105-108 | sets only the username; the other settings and the client are unchanged; the invariant is preserved; an up-to-date client stays up to date exactly when the username did not change |
| `Client.BaseClient.GetUsername` | src/TrinityCore/Abstracts/BaseClient.php:114-117 | returns the stored username |
| `Client.BaseClient.SetPassword` | src/TrinityCore/Abstracts/BaseClient.php:123-126 | sets only the password; the other settings and the client are unchanged; the invariant is preserved; an up-to-date client stays up to date exactly when the password did not change |
| `Client.BaseClient.GetPassword` | src/TrinityCore/Abstracts/BaseClient.php:132-135 | returns the stored password |
| `Client.BaseClient.GetVersion` | src/TrinityCore/Abstracts/BaseClient.php:181-184 | always `"1.0.5"` |
| `Client.BaseClient.CreateConnection` | src/TrinityCore/Abstracts/BaseClient.php:189-199 | replaces the client with the option record built from the settings at call time, leaves the settings unchanged, and makes the client up to date |
| `Client.BaseClient.GetClient` | src/TrinityCore/Abstracts/BaseClient.php:205-208 | returns the client, or a TypeError exactly when none has been created |
| `Client.BaseClient.ValidateSettings` | src/TrinityCore/Abstracts/BaseClient.php:226-240 | passes exactly when `Validate` passes; otherwise it throws a RuntimeException with the message for the first null setting; it always passes while the invariant holds |

## Left out

- The SOAP transport: `\SoapClient`, the HTTP connection and the remote `urn:TC` calls. A connection is modelled as the option record passed to it.
- `extension_loaded('soap')` is a query of the runtime environment. It becomes the `soapLoaded` argument of `Create`.
- `PHP_EOL` in the SOAP exception message is fixed to `"\n"`, its value on Unix hosts.
- PHP strings are byte strings. The model uses Dafny strings (sequences of characters) and does no encoding.
- PHP's scalar coercion of setter arguments is not modelled; for example, `setPort("7878")` is accepted without strict types. Setters take values that already have the declared type. Ports are limited to PHP's 64-bit `int` range by the `PhpInt` type.
- `Client.BaseClient.GetServerAddress`: the getters require `Valid()`. In PHP, a getter that reads a null property raises a TypeError, because its return type is declared. This cannot happen after the constructor, which establishes `Valid()`.
- `Client.BaseClient.CreateConnection`: requires `Valid()` for the same reason. Its getters would raise a TypeError on a null setting.
- Subclasses of the abstract `BaseClient` (`BaseCommand`, `Client`, the command groups such as `GM`) and their command execution are not part of this model.
- The CLI commands and the HTTP controller are callers of the client and are not part of this model.
