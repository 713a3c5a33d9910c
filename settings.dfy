/** Construction of a logger: validation of the caller's options, the
    defaults, the port and the endpoint URL
    (lib/logzio-nodejs.js, the `LogzioLogger` constructor). */
module Settings {
  import opened Wrappers
  import opened Records

  /** The options object. A missing property is None; JavaScript's falsy
      values of a present property ("" for a string, 0 for a number, false
      for a flag) are kept, because the constructor treats them like a
      missing one. */
  datatype Options = Options(
    token: Option<string>,
    protocol: Option<string>,
    host: Option<string>,
    logType: Option<string>,
    sendIntervalMs: Option<int>,
    bufferSize: Option<int>,
    debug: Option<bool>,
    numberOfRetries: Option<int>,
    timeout: Option<int>,
    extraFields: Option<Record>)

  /** The settings a constructed logger holds. */
  datatype Config = Config(
    token: string,
    protocol: string,
    host: string,
    port: nat,
    userAgent: string,
    logType: string,
    sendIntervalMs: int,
    bufferSize: int,
    debug: bool,
    numberOfRetries: int,
    timeout: Option<int>,
    url: string,
    extraFields: Record)

  /** The two errors the constructor throws. */
  datatype ConfigError = MissingToken | InvalidProtocol

  const DEFAULT_PROTOCOL := "http"
  const DEFAULT_HOST := "listener-4.logz.io"
  const DEFAULT_TYPE := "nodejs"
  const DEFAULT_SEND_INTERVAL_MS := 10 * 1000
  const DEFAULT_BUFFER_SIZE := 100
  const DEFAULT_NUMBER_OF_RETRIES := 3
  const HTTP_PORT := 8070
  const HTTPS_PORT := 8071
  const USER_AGENT := "Logzio-Logger NodeJS"

  /** `options.x || d` for a string option. */
  function StringOr(o: Option<string>, d: string): string {
    if o.Some? && o.value != "" then o.value else d
  }

  /** `options.x || d` for a numeric option. */
  function IntOr(o: Option<int>, d: int): int {
    if o.Some? && o.value != 0 then o.value else d
  }

  /** The value of a decimal digit character. */
  function DigitValue(c: char): int {
    c as int - '0' as int
  }

  /** The number a string of decimal digits denotes, most significant first. */
  function DigitsValue(s: string): int
    decreases |s|
  {
    if s == [] then 0 else 10 * DigitsValue(s[..|s| - 1]) + DigitValue(s[|s| - 1])
  }

  /** JavaScript's `String(n)` for a non-negative integer: the decimal
      numeral of `n`, without leading zeros. */
  function Decimal(n: nat): (s: string)
    ensures |s| >= 1
    ensures forall i :: 0 <= i < |s| ==> '0' <= s[i] <= '9'
    ensures DigitsValue(s) == n
    ensures n >= 10 ==> s[0] != '0'
    decreases n
  {
    if n < 10 then ["0123456789"[n]]
    else
      var s := Decimal(n / 10) + ["0123456789"[n % 10]];
      assert s[..|s| - 1] == Decimal(n / 10);
      s
  }

  lemma PortDigits()
    ensures Decimal(HTTP_PORT) == "8070" && Decimal(HTTPS_PORT) == "8071"
  {
    assert Decimal(8) == "8";
    assert Decimal(80) == "80";
    assert Decimal(807) == "807";
  }

  /** The port the protocol implies. */
  function PortOf(protocol: string): (port: nat)
    ensures port == HTTP_PORT <==> protocol == "http"
    ensures port == HTTPS_PORT <==> protocol != "http"
  {
    if protocol == "http" then HTTP_PORT else HTTPS_PORT
  }

  /** The endpoint `protocol://host:port?token=token`. */
  function Url(protocol: string, host: string, port: nat, token: string): string {
    protocol + "://" + host + ":" + Decimal(port) + "?token=" + token
  }

  /** The constructor: reject a missing or empty token, then a protocol
      other than `http`/`https` when one is given, otherwise apply the
      defaults with `||` and derive the port and the URL. */
  function Configure(options: Option<Options>): (r: Result<Config, ConfigError>)
    ensures r == Failure(MissingToken) <==>
              options.None? || options.value.token.None? || options.value.token.value == ""
    ensures r == Failure(InvalidProtocol) <==>
              && options.Some? && options.value.token.Some? && options.value.token.value != ""
              && options.value.protocol.Some? && options.value.protocol.value != ""
              && options.value.protocol.value != "http" && options.value.protocol.value != "https"
    ensures r.Success? ==>
              && options.Some? && options.value.token == Some(r.value.token)
              && (r.value.protocol == "http" || r.value.protocol == "https")
              && r.value.port == (if r.value.protocol == "http" then 8070 else 8071)
              && r.value.url ==
                 r.value.protocol + "://" + r.value.host + ":" +
                 (if r.value.protocol == "http" then "8070" else "8071") +
                 "?token=" + r.value.token
  {
    if options.None? || options.value.token.None? || options.value.token.value == "" then
      Failure(MissingToken)
    else
      var o := options.value;
      if o.protocol.Some? && o.protocol.value != "" && o.protocol.value != "http" && o.protocol.value != "https" then
        Failure(InvalidProtocol)
      else
        var protocol := StringOr(o.protocol, DEFAULT_PROTOCOL);
        var host := StringOr(o.host, DEFAULT_HOST);
        var port := PortOf(protocol);
        PortDigits();
        Success(Config(
          o.token.value,
          protocol,
          host,
          port,
          USER_AGENT,
          StringOr(o.logType, DEFAULT_TYPE),
          IntOr(o.sendIntervalMs, DEFAULT_SEND_INTERVAL_MS),
          IntOr(o.bufferSize, DEFAULT_BUFFER_SIZE),
          if o.debug.Some? then o.debug.value else false,
          IntOr(o.numberOfRetries, DEFAULT_NUMBER_OF_RETRIES),
          o.timeout,
          Url(protocol, host, port, o.token.value),
          if o.extraFields.Some? then o.extraFields.value else map[]))
  }

  /** The `||` defaults: a missing or falsy option gets the documented
      default, a truthy one is kept, and the options without a default
      are passed through; the log type is never empty. */
  lemma Defaults(options: Options)
    requires options.token.Some? && options.token.value != ""
    requires options.protocol.None? || options.protocol.value in {"", "http", "https"}
    ensures Configure(Some(options)).Success?
    ensures var c := Configure(Some(options)).value;
      && (options.protocol.None? || options.protocol.value == "" ==> c.protocol == "http" && c.port == 8070)
      && (options.protocol == Some("http") ==> c.protocol == "http" && c.port == 8070)
      && (options.protocol == Some("https") ==> c.protocol == "https" && c.port == 8071)
      && (options.host.None? || options.host.value == "" ==> c.host == "listener-4.logz.io")
      && (options.host.Some? && options.host.value != "" ==> c.host == options.host.value)
      && (options.logType.None? || options.logType.value == "" ==> c.logType == "nodejs")
      && (options.logType.Some? && options.logType.value != "" ==> c.logType == options.logType.value)
      && c.logType != ""
      && (options.sendIntervalMs.None? || options.sendIntervalMs.value == 0 ==> c.sendIntervalMs == 10000)
      && (options.sendIntervalMs.Some? && options.sendIntervalMs.value != 0 ==> c.sendIntervalMs == options.sendIntervalMs.value)
      && (options.bufferSize.None? || options.bufferSize.value == 0 ==> c.bufferSize == 100)
      && (options.bufferSize.Some? && options.bufferSize.value != 0 ==> c.bufferSize == options.bufferSize.value)
      && (options.numberOfRetries.None? || options.numberOfRetries.value == 0 ==> c.numberOfRetries == 3)
      && (options.numberOfRetries.Some? && options.numberOfRetries.value != 0 ==> c.numberOfRetries == options.numberOfRetries.value)
      && c.debug == (options.debug == Some(true))
      && c.timeout == options.timeout
      && c.extraFields == (if options.extraFields.Some? then options.extraFields.value else map[])
      && c.userAgent == "Logzio-Logger NodeJS"
  {
  }
}
