/**
 * The client's configuration: the credentials it is constructed with and the
 * base address it derives from the testing flag. Kept apart from the
 * endpoint table because the request builder and the signer read it too.
 */
module ClientConfig {
  import opened JsValues

  /** Base address of the exchange's test network. */
  const TestnetUrl: string := "https://testnet.binance.vision"

  /** Base address of the production exchange. */
  const ProductionUrl: string := "https://api.binance.com"

  /** The fields of a constructed client; none of them changes afterwards. */
  datatype Client = Client(
    binanceApiKey: string,
    binanceSecretKey: string,
    testingMode: bool,
    apiUrl: string)

  /**
   * The constructor. `testingMode` defaults to true, and JavaScript applies
   * the default when the argument is omitted or `undefined`.
   */
  function NewClient(binanceApiKey: string, binanceSecretKey: string, testingMode: Option<bool>): (c: Client)
    ensures c.binanceApiKey == binanceApiKey && c.binanceSecretKey == binanceSecretKey
    ensures c.testingMode <==> testingMode != Some(false)
    ensures c.apiUrl == TestnetUrl <==> testingMode != Some(false)
    ensures c.apiUrl == ProductionUrl <==> testingMode == Some(false)
  {
    var mode := OrDefault(testingMode, true);
    Client(binanceApiKey, binanceSecretKey, mode, if mode then TestnetUrl else ProductionUrl)
  }
}
