/**
 * The list of components the demo screen decodes (MainActivity.kt), as JSON
 * values, and what the decoder makes of it: the first eight elements decode,
 * in order, to the components they describe, and the ninth, a "chart", has no
 * registered serializer, so the whole list fails.
 */
module SamplePayload {
  import opened Wrappers
  import opened JsonValue
  import opened Components
  import opened JsonParser
  import opened JsonParserProperties

  const CardJson: Json := JObj([
    ("_type", JStr("card")),
    ("type", JStr("card")),
    ("title", JStr("Exclusive Offer")),
    ("imageUrl", JStr("https://example.com/image.jpg")),
    ("description", JStr("Get 20% off on your first order!")),
    ("backgroundColor", JStr("#FFAA00"))])

  const BannerJson: Json := JObj([
    ("_type", JStr("banner")),
    ("type", JStr("banner")),
    ("title", JStr("Welcome!")),
    ("description", JStr("Start your journey with us.")),
    ("countdown", JStr("2024-12-31T23:59:59Z")),
    ("backgroundColor", JStr("#FFAA00"))])

  const ButtonJson: Json := JObj([
    ("_type", JStr("button")),
    ("type", JStr("button")),
    ("text", JStr("Learn More")),
    ("action", JStr("https://example.com/learn"))])

  const Product1Json: Json := JObj([
    ("_type", JStr("product")),
    ("type", JStr("product")),
    ("title", JStr("Product 1")),
    ("imageUrl", JStr("https://example.com/image.jpg")),
    ("description", JStr("Product 1 description")),
    ("price", JStr("$10.00"))])

  const Product2Json: Json := JObj([
    ("_type", JStr("product")),
    ("type", JStr("product")),
    ("title", JStr("Product 2")),
    ("imageUrl", JStr("https://example.com/image.jpg")),
    ("description", JStr("Product 2 description")),
    ("price", JStr("$20.00"))])

  const Product3Json: Json := JObj([
    ("_type", JStr("product")),
    ("type", JStr("product")),
    ("title", JStr("Product 3")),
    ("imageUrl", JStr("https://example.com/image.jpg")),
    ("description", JStr("Product 3 description")),
    ("price", JStr("$30.00"))])

  /** Written both as a top-level component and as the dashboard's first transaction. */
  const Transaction1Json: Json := JObj([
    ("_type", JStr("transaction")),
    ("type", JStr("transaction")),
    ("title", JStr("Transaction 1")),
    ("amount", JStr("$10.00")),
    ("date", JStr("2024-12-31T23:59:59Z"))])

  const Transaction2Json: Json := JObj([
    ("_type", JStr("transaction")),
    ("type", JStr("transaction")),
    ("title", JStr("Transaction 2")),
    ("amount", JStr("$20.00")),
    ("date", JStr("2024-12-31T23:59:59Z"))])

  /** A dashboard object with the given balance and list of transactions. */
  function DashboardJsonWith(balance: string, es: seq<Json>): Json {
    JObj([
      ("_type", JStr("dashboard")),
      ("type", JStr("dashboard")),
      ("balance", JStr(balance)),
      ("transactions", JArr(es))])
  }

  const DashboardBalance: string := "$100.00"

  /** The dashboard's two transactions; each carries a "_type" member of its own. */
  const DashboardTransactionsJson: seq<Json> := [Transaction1Json, Transaction2Json]

  const DashboardJson: Json := DashboardJsonWith(DashboardBalance, DashboardTransactionsJson)

  const ChartJson: Json := JObj([
    ("_type", JStr("chart")),
    ("type", JStr("chart")),
    ("title", JStr("Sales Chart")),
    ("data", JArr([JNum(150), JNum(200), JNum(250), JNum(300)])),
    ("labels", JArr([JStr("January"), JStr("February"), JStr("March"), JStr("April")]))])

  const ProfileJson: Json := JObj([
    ("_type", JStr("profile")),
    ("type", JStr("profile")),
    ("name", JStr("John Doe")),
    ("avatar", JStr("https://example.com/avatar.jpg")),
    ("bio", JStr("Developer and Designer")),
    ("stats", JObj([("posts", JNum(120)), ("followers", JNum(300)), ("following", JNum(150))]))])

  function SettingsItemJson(title: string, subtitle: string, kind: string, value: string): Json {
    JObj([("title", JStr(title)), ("subtitle", JStr(subtitle)), ("type", JStr(kind)), ("value", JStr(value))])
  }

  const SettingsJson: Json := JObj([
    ("_type", JStr("settings")),
    ("type", JStr("settings")),
    ("sections", JArr([
      JObj([
        ("title", JStr("General")),
        ("items", JArr([
          SettingsItemJson("Notifications", "Turn on/off notifications", "toggle", "true"),
          SettingsItemJson("Language", "Choose language", "input", "English")]))]),
      JObj([
        ("title", JStr("Privacy")),
        ("items", JArr([
          SettingsItemJson("Location", "Enable location sharing", "toggle", "false"),
          SettingsItemJson("Two-factor Authentication", "Enable 2FA for added security", "toggle", "true")]))])]))])

  /** The eleven elements of the demo payload, in order. */
  const Payload: seq<Json> := [
    CardJson, BannerJson, ButtonJson, Product1Json, Product2Json, Product3Json,
    Transaction1Json, DashboardJson, ChartJson, ProfileJson, SettingsJson]

  const Transaction1: TransactionUI := TransactionUI("transaction", "Transaction 1", "$10.00", "2024-12-31T23:59:59Z")
  const Transaction2: TransactionUI := TransactionUI("transaction", "Transaction 2", "$20.00", "2024-12-31T23:59:59Z")

  /** The transactions the dashboard's list describes, in order. */
  const DashboardTransactions: seq<TransactionUI> := [Transaction1, Transaction2]

  /** The components the first eight elements describe, in order. */
  const Expected: seq<UIComponent> := [
    CardUI("card", "Exclusive Offer", "https://example.com/image.jpg", "Get 20% off on your first order!"),
    BannerUI("banner", "Welcome!", "Start your journey with us.", "2024-12-31T23:59:59Z", "#FFAA00"),
    ButtonUI("button", "Learn More", "https://example.com/learn"),
    ProductUI("product", "Product 1", "https://example.com/image.jpg", "Product 1 description", "$10.00"),
    ProductUI("product", "Product 2", "https://example.com/image.jpg", "Product 2 description", "$20.00"),
    ProductUI("product", "Product 3", "https://example.com/image.jpg", "Product 3 description", "$30.00"),
    Transaction(Transaction1),
    DashboardUI("dashboard", DashboardBalance, DashboardTransactions)]

  /**
   * `j` is an object with distinct keys that holds the serial name of `c` under
   * "_type" and each string property of `c` under the property's key.
   */
  predicate Describes(j: Json, c: UIComponent) {
    && j.JObj? && DistinctKeys(j.members)
    && (ClassDiscriminator, JStr(SerialName(c))) in j.members
    && forall k | 0 <= k < |StringFieldsOf(ClassOf(c))| ::
         (StringFieldsOf(ClassOf(c))[k], JStr(StringValues(c)[k])) in j.members
  }

  /** The card and the banner describe their components. */
  lemma CardAndBannerDescribe(i: nat)
    requires i < 2
    ensures Describes(Payload[i], Expected[i])
  {
  }

  /** The button and the first product describe their components. */
  lemma ButtonAndProductDescribe(i: nat)
    requires 2 <= i < 4
    ensures Describes(Payload[i], Expected[i])
  {
  }

  /** The second and third products describe their components. */
  lemma ProductsDescribe(i: nat)
    requires 4 <= i < 6
    ensures Describes(Payload[i], Expected[i])
  {
  }

  /** The transaction and the dashboard describe their components. */
  lemma TransactionAndDashboardDescribe(i: nat)
    requires 6 <= i < 8
    ensures Describes(Payload[i], Expected[i])
  {
  }

  /** Each of the dashboard's transactions is an object holding the properties of the expected transaction. */
  lemma DashboardTransactionsDescribe(k: nat)
    requires k < |DashboardTransactionsJson|
    ensures DashboardTransactionsJson[k].JObj? && DistinctKeys(DashboardTransactionsJson[k].members)
    ensures forall f | 0 <= f < |TransactionFields| ::
      (TransactionFields[f], JStr(TransactionValues(DashboardTransactions[k])[f])) in DashboardTransactionsJson[k].members
  {
  }

  /** Each element of the dashboard's list decodes to the transaction at its position; its "_type" is ignored. */
  lemma DashboardTransactionsDecode()
    ensures |DashboardTransactionsJson| == |DashboardTransactions|
    ensures forall k | 0 <= k < |DashboardTransactionsJson| ::
      DecodeTransaction(DashboardTransactionsJson[k]) == Success(DashboardTransactions[k])
  {
    forall k | 0 <= k < |DashboardTransactionsJson|
      ensures DecodeTransaction(DashboardTransactionsJson[k]) == Success(DashboardTransactions[k])
    {
      DashboardTransactionsDescribe(k);
      TransactionFromMembers(DashboardTransactionsJson[k].members, DashboardTransactions[k]);
    }
  }

  /** The chart names no registered serializer. */
  lemma ChartFails()
    ensures DecodeComponent(ChartJson) == Failure(UnknownDiscriminator("chart"))
  {
  }

  /**
   * Each of the first eight elements decodes to the expected component at its
   * position; the card's "backgroundColor" and the nested transactions' "_type"
   * are ignored.
   */
  lemma ElementDecodes(i: nat)
    requires i < 8
    ensures DecodeComponent(Payload[i]) == Success(Expected[i])
  {
    if i < 2 {
      CardAndBannerDescribe(i);
    } else if i < 4 {
      ButtonAndProductDescribe(i);
    } else if i < 6 {
      ProductsDescribe(i);
    } else {
      TransactionAndDashboardDescribe(i);
    }
    var es := if Expected[i].DashboardUI? then DashboardTransactionsJson else [];
    if Expected[i].DashboardUI? {
      assert (TransactionsField, JArr(es)) in Payload[i].members && Expected[i].transactions == DashboardTransactions;
      DashboardTransactionsDecode();
    }
    DecodesFromMembers(Payload[i].members, Expected[i], es);
  }

  /**
   * The first eight elements decode to the eight expected components, in
   * order, whatever list follows them, provided it decodes; with `rest` empty
   * this is the decode of the first eight elements alone.
   */
  lemma PrefixDecodes(rest: seq<Json>)
    requires DecodeList(JArr(rest)).Success?
    ensures DecodeList(JArr(Payload[..8] + rest)) == Success(Expected + DecodeList(JArr(rest)).value)
  {
    var es, cs := Payload[..8] + rest, DecodeList(JArr(rest)).value;
    forall i | 0 <= i < |es| ensures DecodeComponent(es[i]) == Success((Expected + cs)[i]) {
      if i < 8 {
        assert es[i] == Payload[i];
        ElementDecodes(i);
      } else {
        assert es[i] == rest[i - 8];
      }
    }
    ElementsDecodeTo(es, Expected + cs, DecodeComponent);
  }

  /**
   * The demo payload fails as a whole: the list decode stops at the chart, its
   * first undecodable element, whatever follows the chart; with `rest` the
   * profile and the settings this is the payload as written.
   */
  lemma PayloadFails(rest: seq<Json>)
    ensures DecodeList(JArr(Payload[..9] + rest)) == Failure(UnknownDiscriminator("chart"))
  {
    var es := Payload[..9] + rest;
    forall h | 0 <= h < 8 ensures DecodeComponent(es[h]).Success? {
      assert es[h] == Payload[h];
      ElementDecodes(h);
    }
    assert es[8] == ChartJson;
    ChartFails();
    FirstFailureReported(es, 8, DecodeComponent);
  }

  /** The payload as written fails as a whole, at the chart, with its unknown discriminator. */
  lemma WholePayloadFails()
    ensures DecodeList(JArr(Payload)) == Failure(UnknownDiscriminator("chart"))
  {
    PayloadFails(Payload[9..]);
    assert Payload[..9] + Payload[9..] == Payload;
  }

  /** The first eight elements alone decode to the eight expected components, in order. */
  lemma FirstEightDecode()
    ensures DecodeList(JArr(Payload[..8])) == Success(Expected)
  {
    var rest: seq<Json> := [];
    EmptyListDecodes(JArr(rest));
    PrefixDecodes(rest);
    assert Payload[..8] + rest == Payload[..8];
    assert Expected + DecodeList(JArr(rest)).value == Expected;
  }

  /** A button whose `type` property says "banner". */
  const MislabelledButtonJson: Json := JObj([
    ("_type", JStr("button")),
    ("type", JStr("banner")),
    ("text", JStr("Learn More")),
    ("action", JStr("https://example.com/learn"))])

  /** Only "_type" chooses the class: the mislabelled button is a button whose `type` is "banner". */
  lemma TypePropertyDoesNotDispatch()
    ensures DecodeComponent(MislabelledButtonJson) == Success(ButtonUI("banner", "Learn More", "https://example.com/learn"))
  {
    DecodesFromMembers(MislabelledButtonJson.members, ButtonUI("banner", "Learn More", "https://example.com/learn"), []);
  }
}
