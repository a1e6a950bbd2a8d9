/**
 * The closed component schema: the sealed interface `UIComponent` and its six
 * serializable data classes, with the serial name each is registered under.
 * Every property is a required, non-nullable string, except the dashboard's
 * ordered list of transactions.
 */
module Components {
  import opened Wrappers

  /**
   * A transaction record. It is a component of its own and also the element
   * type of a dashboard's list. `typeName` is the Kotlin property `type`
   * (`type` is a reserved word in Dafny).
   */
  datatype TransactionUI = TransactionUI(typeName: string, title: string, amount: string, date: string)

  /** The six variants of the sealed interface, one per data class. */
  datatype UIComponent =
    | BannerUI(typeName: string, title: string, description: string, countdown: string, backgroundColor: string)
    | CardUI(typeName: string, title: string, imageUrl: string, description: string)
    | ButtonUI(typeName: string, text: string, action: string)
    | ProductUI(typeName: string, title: string, imageUrl: string, description: string, price: string)
    | Transaction(record: TransactionUI)
    | DashboardUI(typeName: string, balance: string, transactions: seq<TransactionUI>)
  {
    /** The interface property `type` that every variant overrides. */
    function Type(): string {
      if Transaction? then record.typeName else typeName
    }
  }

  /** The six data classes themselves, as the serializers module knows them. */
  datatype ComponentClass = BannerClass | CardClass | ButtonClass | ProductClass | TransactionClass | DashboardClass

  /** The class a component is an instance of. */
  function ClassOf(c: UIComponent): ComponentClass {
    match c
    case BannerUI(_, _, _, _, _) => BannerClass
    case CardUI(_, _, _, _) => CardClass
    case ButtonUI(_, _, _) => ButtonClass
    case ProductUI(_, _, _, _, _) => ProductClass
    case Transaction(_) => TransactionClass
    case DashboardUI(_, _, _) => DashboardClass
  }

  /** The `@SerialName` of each class. */
  function SerialNameOf(k: ComponentClass): string {
    match k
    case BannerClass => "banner"
    case CardClass => "card"
    case ButtonClass => "button"
    case ProductClass => "product"
    case TransactionClass => "transaction"
    case DashboardClass => "dashboard"
  }

  /** The serial name a component is written under. */
  function SerialName(c: UIComponent): string {
    SerialNameOf(ClassOf(c))
  }

  /** The subclasses registered for polymorphic decoding, in registration order. */
  const Registry: seq<ComponentClass> := [BannerClass, CardClass, ButtonClass, ProductClass, DashboardClass, TransactionClass]

  /** The serial names of the registered subclasses. */
  const RegisteredNames: seq<string> := ["banner", "card", "button", "product", "dashboard", "transaction"]

  /**
   * The registered subclass whose serial name is `name`, if any: the lookup the
   * polymorphic serializer performs on the discriminator's value.
   */
  function ClassNamed(name: string): (r: Option<ComponentClass>)
    ensures r.Some? ==> r.value in Registry && SerialNameOf(r.value) == name
    ensures r.None? <==> name !in RegisteredNames
  {
    if name == "banner" then Some(BannerClass)
    else if name == "card" then Some(CardClass)
    else if name == "button" then Some(ButtonClass)
    else if name == "product" then Some(ProductClass)
    else if name == "dashboard" then Some(DashboardClass)
    else if name == "transaction" then Some(TransactionClass)
    else None
  }

  /** The string properties each class declares, in declaration order. */
  const BannerFields: seq<string> := ["type", "title", "description", "countdown", "backgroundColor"]
  const CardFields: seq<string> := ["type", "title", "imageUrl", "description"]
  const ButtonFields: seq<string> := ["type", "text", "action"]
  const ProductFields: seq<string> := ["type", "title", "imageUrl", "description", "price"]
  const TransactionFields: seq<string> := ["type", "title", "amount", "date"]
  const DashboardStringFields: seq<string> := ["type", "balance"]

  /** The key of the dashboard's list of transactions, its one property that is not a string. */
  const TransactionsField: string := "transactions"

  /** The string properties of a class, in declaration order. */
  function StringFieldsOf(k: ComponentClass): seq<string> {
    match k
    case BannerClass => BannerFields
    case CardClass => CardFields
    case ButtonClass => ButtonFields
    case ProductClass => ProductFields
    case TransactionClass => TransactionFields
    case DashboardClass => DashboardStringFields
  }

  /** Every property a class declares, in declaration order. */
  function FieldsOf(k: ComponentClass): seq<string> {
    StringFieldsOf(k) + if k == DashboardClass then [TransactionsField] else []
  }

  /** The properties declared by the class registered under `name`; none for an unregistered name. */
  function FieldsNamed(name: string): seq<string> {
    match ClassNamed(name)
    case Some(k) => FieldsOf(k)
    case None => []
  }

  /** The values of a component's string properties, in declaration order. */
  function StringValues(c: UIComponent): (vs: seq<string>)
    ensures |vs| == |StringFieldsOf(ClassOf(c))|
    ensures vs[0] == c.Type()
  {
    match c
    case BannerUI(t, title, description, countdown, backgroundColor) => [t, title, description, countdown, backgroundColor]
    case CardUI(t, title, imageUrl, description) => [t, title, imageUrl, description]
    case ButtonUI(t, text, action) => [t, text, action]
    case ProductUI(t, title, imageUrl, description, price) => [t, title, imageUrl, description, price]
    case Transaction(r) => TransactionValues(r)
    case DashboardUI(t, balance, _) => [t, balance]
  }

  /** The values of a transaction's properties, in declaration order. */
  function TransactionValues(r: TransactionUI): seq<string> {
    [r.typeName, r.title, r.amount, r.date]
  }

  /** The dashboard's transactions; no other variant has a non-string property. */
  function TransactionsOf(c: UIComponent): seq<TransactionUI> {
    if c.DashboardUI? then c.transactions else []
  }

  /**
   * The constructor of a class, applied to its string properties in
   * declaration order (and, for a dashboard, its transactions).
   */
  function Build(k: ComponentClass, vs: seq<string>, ts: seq<TransactionUI>): (c: UIComponent)
    requires |vs| == |StringFieldsOf(k)|
    ensures ClassOf(c) == k && StringValues(c) == vs
    ensures TransactionsOf(c) == if k == DashboardClass then ts else []
  {
    match k
    case BannerClass => BannerUI(vs[0], vs[1], vs[2], vs[3], vs[4])
    case CardClass => CardUI(vs[0], vs[1], vs[2], vs[3])
    case ButtonClass => ButtonUI(vs[0], vs[1], vs[2])
    case ProductClass => ProductUI(vs[0], vs[1], vs[2], vs[3], vs[4])
    case TransactionClass => Transaction(TransactionUI(vs[0], vs[1], vs[2], vs[3]))
    case DashboardClass => DashboardUI(vs[0], vs[1], ts)
  }

  /** A component is rebuilt from its class, its string properties and its transactions. */
  lemma BuildInverse(c: UIComponent)
    ensures Build(ClassOf(c), StringValues(c), TransactionsOf(c)) == c
  {
  }

  /**
   * Every class is registered under its own serial name, and the registration
   * is unambiguous: no two classes share a serial name, so the discriminator
   * selects exactly one class.
   */
  lemma RegistryUnambiguous(k: ComponentClass, l: ComponentClass)
    ensures k in Registry && ClassNamed(SerialNameOf(k)) == Some(k)
    ensures SerialNameOf(k) == SerialNameOf(l) <==> k == l
  {
  }

  /** The registered names are the serial names of the registered classes, in registration order. */
  lemma RegisteredNamesOfRegistry()
    ensures |RegisteredNames| == |Registry|
    ensures forall i | 0 <= i < |Registry| :: RegisteredNames[i] == SerialNameOf(Registry[i])
  {
  }

  /**
   * Every class declares `type` first, no class declares a property twice, and
   * none declares the discriminator key "_type".
   */
  lemma FieldsOfWellFormed(k: ComponentClass)
    ensures FieldsOf(k)[0] == "type"
    ensures forall i, j | 0 <= i < j < |FieldsOf(k)| :: FieldsOf(k)[i] != FieldsOf(k)[j]
    ensures "_type" !in FieldsOf(k)
  {
  }
}
