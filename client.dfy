/**
 * `BaseClient`: the connection settings of a TrinityCore SOAP console client
 * and the SOAP connection created from them.
 *
 * The PHP properties are untyped, so each setting may be `null`; they are
 * `Option`s here. `Valid()` is the class invariant that every setting is
 * present: the defaults provide the address and port, the constructor's
 * setters provide the credentials, and no setter accepts `null`.
 */
module Client {
  import opened Wrappers
  import opened Decimal
  import opened Connection

  /** The package version reported by `getVersion`. */
  const VERSION: string := "1.0.5"

  const DEFAULT_ADDRESS: string := "127.0.0.1"
  const DEFAULT_PORT: PhpInt := 7878

  /** PHP_EOL on the Unix hosts the console client runs on. */
  const EOL: string := "\n"

  const SOAP_DISABLED_MESSAGE: string :=
    "FreedomNet requires SOAP extension to be enabled." + EOL + "Please enable SOAP extension"

  /** The settings `validateSettings` inspects, in the order it inspects them. */
  datatype Setting = Address | Port | Username | Password

  /** The exceptions the client raises. */
  datatype ClientError =
    | SoapException(message: string)     // the SOAP extension is not loaded
    | RuntimeException(message: string)  // a setting is null
    | TypeError                          // `getClient` returned null where a SoapClient is declared

  /** A snapshot of the four settings, each possibly null. */
  datatype Settings = Settings(
    address: Option<string>,
    port: Option<int>,
    username: Option<string>,
    password: Option<string>)

  /** Position of a setting in `validateSettings`' sequence of checks. */
  function Rank(s: Setting): nat {
    match s
    case Address => 0
    case Port => 1
    case Username => 2
    case Password => 3
  }

  predicate IsNull(settings: Settings, s: Setting) {
    match s
    case Address => settings.address.None?
    case Port => settings.port.None?
    case Username => settings.username.None?
    case Password => settings.password.None?
  }

  function NullMessage(s: Setting): string {
    match s
    case Address => "SOAP Address cannot be null!"
    case Port => "SOAP Port cannot be null!"
    case Username => "SOAP Username cannot be null!"
    case Password => "SOAP Password cannot be null!"
  }

  /**
   * The rule of `validateSettings`: it fails exactly when some setting is
   * null, and then names the first null one in check order.
   */
  function Validate(settings: Settings): (r: Outcome<Setting>)
    ensures r.Pass? <==> forall s :: !IsNull(settings, s)
    ensures r.Fail? ==> IsNull(settings, r.error)
    ensures r.Fail? ==> forall s :: Rank(s) < Rank(r.error) ==> !IsNull(settings, s)
  {
    if settings.address.None? then assert IsNull(settings, Address); Fail(Address)
    else if settings.port.None? then assert IsNull(settings, Port); Fail(Port)
    else if settings.username.None? then assert IsNull(settings, Username); Fail(Username)
    else if settings.password.None? then assert IsNull(settings, Password); Fail(Password)
    else Pass
  }

  /** Settings in which every field is present always pass validation. */
  lemma CompleteSettingsValidate(address: string, port: int, username: string, password: string)
    ensures Validate(Settings(Some(address), Some(port), Some(username), Some(password))) == Pass
  {
  }

  class BaseClient {
    var serverAddress: Option<string>
    var serverPort: Option<PhpInt>
    var client: Option<SoapOptions>
    var username: Option<string>
    var password: Option<string>

    /** Every setting is non-null. */
    ghost predicate Valid()
      reads this
    {
      serverAddress.Some? && serverPort.Some? && username.Some? && password.Some?
    }

    function CurrentSettings(): Settings
      reads this
    {
      Settings(serverAddress, if serverPort.Some? then Some(serverPort.value as int) else None, username, password)
    }

    /** The connection exists and was built from the settings as they are now. */
    ghost predicate UpToDate()
      reads this
    {
      Valid() &&
      client == Some(ConnectionOptions(serverAddress.value, serverPort.value, username.value, password.value))
    }

    /**
     * The constructor once the SOAP extension check has passed: store the
     * credentials, validate, and connect when `createNow` is set.
     */
    constructor (username: string, password: string, createNow: bool := true)
      ensures Valid()
      ensures serverAddress == Some(DEFAULT_ADDRESS) && serverPort == Some(DEFAULT_PORT)
      ensures this.username == Some(username) && this.password == Some(password)
      ensures client == if createNow then Some(ConnectionOptions(DEFAULT_ADDRESS, DEFAULT_PORT, username, password)) else None
      ensures createNow <==> UpToDate()
    {
      serverAddress := Some(DEFAULT_ADDRESS);
      serverPort := Some(DEFAULT_PORT);
      client := None;
      this.username := None;
      this.password := None;
      new;
      SetUsername(username);
      SetPassword(password);
      var validation := ValidateSettings();
      assert validation == Pass;
      if createNow {
        CreateConnection();
      }
    }

    /** `new` including the SOAP extension check, which fails before any setting is stored. */
    static method Create(soapLoaded: bool, username: string, password: string, createNow: bool := true)
      returns (r: Result<BaseClient, ClientError>)
      ensures !soapLoaded ==> r == Failure(SoapException(SOAP_DISABLED_MESSAGE))
      ensures soapLoaded ==> r.Success? && fresh(r.value) && r.value.Valid()
      ensures soapLoaded ==> r.value.username == Some(username) && r.value.password == Some(password)
      ensures soapLoaded ==> r.value.serverAddress == Some(DEFAULT_ADDRESS) && r.value.serverPort == Some(DEFAULT_PORT)
      ensures soapLoaded ==> (r.value.client ==
        if createNow then Some(ConnectionOptions(DEFAULT_ADDRESS, DEFAULT_PORT, username, password)) else None)
    {
      if !soapLoaded {
        return Failure(SoapException(SOAP_DISABLED_MESSAGE));
      }
      var c := new BaseClient(username, password, createNow);
      return Success(c);
    }

    function GetServerAddress(): (r: string)
      reads this
      requires Valid()
      ensures serverAddress == Some(r)
    {
      serverAddress.value
    }

    /** Alias of `GetServerAddress`. */
    function GetAddress(): (r: string)
      reads this
      requires Valid()
      ensures r == GetServerAddress()
    {
      serverAddress.value
    }

    function GetServerPort(): (r: PhpInt)
      reads this
      requires Valid()
      ensures serverPort == Some(r)
    {
      serverPort.value
    }

    /** Alias of `GetServerPort`. */
    function GetPort(): (r: PhpInt)
      reads this
      requires Valid()
      ensures r == GetServerPort()
    {
      serverPort.value
    }

    function GetUsername(): (r: string)
      reads this
      requires Valid()
      ensures username == Some(r)
    {
      username.value
    }

    function GetPassword(): (r: string)
      reads this
      requires Valid()
      ensures password == Some(r)
    {
      password.value
    }

    function GetVersion(): (v: string)
      ensures v == "1.0.5"
    {
      VERSION
    }

    /** The connection; a PHP TypeError while none has been created. */
    function GetClient(): (r: Result<SoapOptions, ClientError>)
      reads this
      ensures r.Failure? <==> client.None?
      ensures r.Failure? ==> r.error == TypeError
      ensures r.Success? ==> client == Some(r.value)
    {
      if client.None? then Failure(TypeError) else Success(client.value)
    }

    method SetServerAddress(serverAddress: string)
      modifies this
      ensures this.serverAddress == Some(serverAddress)
      ensures serverPort == old(serverPort) && username == old(username) && password == old(password)
      ensures client == old(client)
      ensures old(Valid()) ==> Valid()
      ensures old(UpToDate()) ==> (UpToDate() <==> old(this.serverAddress) == Some(serverAddress))
    {
      this.serverAddress := Some(serverAddress);
    }

    /** Fluent alias of `SetServerAddress`. */
    method SetAddress(serverAddress: string) returns (self: BaseClient)
      modifies this
      ensures self == this
      ensures this.serverAddress == Some(serverAddress)
      ensures serverPort == old(serverPort) && username == old(username) && password == old(password)
      ensures client == old(client)
      ensures old(Valid()) ==> Valid()
      ensures old(UpToDate()) ==> (UpToDate() <==> old(this.serverAddress) == Some(serverAddress))
    {
      this.serverAddress := Some(serverAddress);
      self := this;
    }

    method SetServerPort(serverPort: PhpInt)
      modifies this
      ensures this.serverPort == Some(serverPort)
      ensures serverAddress == old(serverAddress) && username == old(username) && password == old(password)
      ensures client == old(client)
      ensures old(Valid()) ==> Valid()
      ensures old(UpToDate()) ==> (UpToDate() <==> old(this.serverPort) == Some(serverPort))
    {
      this.serverPort := Some(serverPort);
    }

    /** Fluent alias of `SetServerPort`. */
    method SetPort(serverPort: PhpInt) returns (self: BaseClient)
      modifies this
      ensures self == this
      ensures this.serverPort == Some(serverPort)
      ensures serverAddress == old(serverAddress) && username == old(username) && password == old(password)
      ensures client == old(client)
      ensures old(Valid()) ==> Valid()
      ensures old(UpToDate()) ==> (UpToDate() <==> old(this.serverPort) == Some(serverPort))
    {
      this.serverPort := Some(serverPort);
      self := this;
    }

    method SetUsername(username: string)
      modifies this
      ensures this.username == Some(username)
      ensures serverAddress == old(serverAddress) && serverPort == old(serverPort) && password == old(password)
      ensures client == old(client)
      ensures old(Valid()) ==> Valid()
      ensures old(UpToDate()) ==> (UpToDate() <==> old(this.username) == Some(username))
    {
      this.username := Some(username);
    }

    method SetPassword(password: string)
      modifies this
      ensures this.password == Some(password)
      ensures serverAddress == old(serverAddress) && serverPort == old(serverPort) && username == old(username)
      ensures client == old(client)
      ensures old(Valid()) ==> Valid()
      ensures old(UpToDate()) ==> (UpToDate() <==> old(this.password) == Some(password))
    {
      this.password := Some(password);
    }

    /** Replaces the connection by one built from the settings read now. */
    method CreateConnection()
      requires Valid()
      modifies this
      ensures serverAddress == old(serverAddress) && serverPort == old(serverPort)
      ensures username == old(username) && password == old(password)
      ensures client == Some(ConnectionOptions(GetServerAddress(), GetServerPort(), GetUsername(), GetPassword()))
      ensures UpToDate()
    {
      var location := SCHEME + GetServerAddress() + ":" + IntToDecimal(GetServerPort()) + "/";
      client := Some(SoapOptions(location, URI, GetUsername(), GetPassword(), Rpc, false));
    }

    /**
     * Checks the settings in order and throws for the first null one;
     * it cannot throw while the class invariant holds.
     */
    method ValidateSettings() returns (r: Outcome<ClientError>)
      ensures r.Pass? <==> Validate(CurrentSettings()).Pass?
      ensures r.Fail? ==> r.error == RuntimeException(NullMessage(Validate(CurrentSettings()).error))
      ensures Valid() ==> r == Pass
    {
      if serverAddress.None? {
        return Fail(RuntimeException(NullMessage(Address)));
      }
      if serverPort.None? {
        return Fail(RuntimeException(NullMessage(Port)));
      }
      if username.None? {
        return Fail(RuntimeException(NullMessage(Username)));
      }
      if password.None? {
        return Fail(RuntimeException(NullMessage(Password)));
      }
      return Pass;
    }
  }
}
