/**
 * The `JsonParser` object: polymorphic decoding of `UIComponent` under the
 * configuration `ignoreUnknownKeys = true`, `classDiscriminator = "_type"`, with
 * the six data classes registered; decoding of a list of components with that
 * configuration; and `parseJsonToComponent`, which turns every failure into null.
 * The encoder is the inverse the round-trip properties are stated against.
 */
module JsonParser {
  import opened Wrappers
  import opened JsonValue
  import opened Components

  /** The key that carries the serial name on the wire; distinct from the property `type`. */
  const ClassDiscriminator: string := "_type"

  /** Why a decode failed: the model's stand-in for the library's exceptions. */
  datatype DecodeError =
    | NotAnArray                     // a list was expected and something else was found
    | NotAnObject                    // a component or a transaction was expected and something else was found
    | MissingDiscriminator           // no "_type" key, or "_type" is null
    | UnknownDiscriminator(name: string) // "_type" names no registered subclass
    | MissingField(field: string)    // a declared property has no key
    | WrongType(field: string)       // a key holds a JSON value of the wrong kind (null included)

  /**
   * The serial name an object carries, or "" when it carries none. "" is no
   * registered name, so an object whose "_type" is "" and one with no string
   * "_type" both fail, as `EmptyTagFails` shows for the former.
   */
  function TagOf(ms: Members): string {
    match Lookup(ms, ClassDiscriminator)
    case Some(JStr(name)) => name
    case _ => ""
  }

  /** The key holds a JSON string. */
  predicate IsString(o: Option<Json>) {
    o.Some? && o.value.JStr?
  }

  /**
   * A required, non-nullable `String` property: it reads when the key holds a
   * JSON string; a missing key and any other value, null included, fail.
   */
  function StringField(ms: Members, key: string): (r: Result<string, DecodeError>)
    ensures r.Success? <==> IsString(Lookup(ms, key))
    ensures r.Success? ==> Lookup(ms, key) == Some(JStr(r.value))
    ensures Lookup(ms, key).None? ==> r == Failure(MissingField(key))
    ensures Lookup(ms, key).Some? && !IsString(Lookup(ms, key)) ==> r == Failure(WrongType(key))
  {
    match Lookup(ms, key)
    case None => Failure(MissingField(key))
    case Some(JStr(s)) => Success(s)
    case Some(_) => Failure(WrongType(key))
  }

  /**
   * The required string properties named by `keys`, read in declaration
   * order; the first one that is missing or not a string fails the decode with
   * its error.
   */
  function StringFields(ms: Members, keys: seq<string>): (r: Result<seq<string>, DecodeError>)
    ensures r.Success? <==> forall i | 0 <= i < |keys| :: IsString(Lookup(ms, keys[i]))
    ensures r.Success? ==>
      |r.value| == |keys| && forall i | 0 <= i < |keys| :: Lookup(ms, keys[i]) == Some(JStr(r.value[i]))
  {
    if keys == [] then Success([])
    else
      var v :- StringField(ms, keys[0]);
      var vs :- StringFields(ms, keys[1..]);
      assert forall i | 1 <= i < |keys| :: keys[i] == keys[1..][i - 1];
      Success([v] + vs)
  }

  /**
   * A `ListSerializer` over the element decoder `decode`: every element is
   * decoded, in order, and the first element that fails makes the whole list
   * fail with its error. There is no partial list.
   */
  function DecodeElements<T>(es: seq<Json>, decode: Json -> Result<T, DecodeError>): (r: Result<seq<T>, DecodeError>)
    ensures r.Success? <==> forall i | 0 <= i < |es| :: decode(es[i]).Success?
    ensures r.Success? ==>
      |r.value| == |es| && forall i | 0 <= i < |es| :: decode(es[i]) == Success(r.value[i])
  {
    if es == [] then Success([])
    else
      var head :- decode(es[0]);
      var tail :- DecodeElements(es[1..], decode);
      assert forall i | 1 <= i < |es| :: es[i] == es[1..][i - 1];
      Success([head] + tail)
  }

  /** A `TransactionUI` read as a concrete class: no discriminator is consulted. */
  function DecodeTransaction(j: Json): (r: Result<TransactionUI, DecodeError>)
    ensures r.Success? <==> j.JObj? && StringFields(j.members, TransactionFields).Success?
    ensures r.Success? ==> StringFields(j.members, TransactionFields) == Success(TransactionValues(r.value))
  {
    match j
    case JObj(ms) =>
      var f :- StringFields(ms, TransactionFields);
      assert f == [f[0], f[1], f[2], f[3]];
      Success(TransactionUI(f[0], f[1], f[2], f[3]))
    case _ => Failure(NotAnObject)
  }

  /**
   * The dashboard's `transactions` property: a required, non-nullable
   * `List<TransactionUI>`. It reads when the key holds an array whose every
   * element is a transaction, and then lists them in the array's order.
   */
  function TransactionsProperty(ms: Members): (r: Result<seq<TransactionUI>, DecodeError>)
    ensures r.Success? <==>
      && Lookup(ms, TransactionsField).Some? && Lookup(ms, TransactionsField).value.JArr?
      && var es := Lookup(ms, TransactionsField).value.elems;
         forall i | 0 <= i < |es| :: DecodeTransaction(es[i]).Success?
    ensures r.Success? ==>
      var es := Lookup(ms, TransactionsField).value.elems;
      |r.value| == |es| && forall i | 0 <= i < |es| :: DecodeTransaction(es[i]) == Success(r.value[i])
    ensures Lookup(ms, TransactionsField).None? ==> r == Failure(MissingField(TransactionsField))
  {
    match Lookup(ms, TransactionsField)
    case None => Failure(MissingField(TransactionsField))
    case Some(JArr(es)) => DecodeElements(es, DecodeTransaction)
    case Some(_) => Failure(WrongType(TransactionsField))
  }

  /**
   * The generated serializer of class `k`: it reads the class's string
   * properties in declaration order, then (for a dashboard) its list of
   * transactions, and calls the class's constructor.
   */
  function DecodeClass(k: ComponentClass, ms: Members): (r: Result<UIComponent, DecodeError>)
    ensures r.Success? ==> ClassOf(r.value) == k
    ensures r.Success? ==>
      forall i | 0 <= i < |StringFieldsOf(k)| :: Lookup(ms, StringFieldsOf(k)[i]) == Some(JStr(StringValues(r.value)[i]))
  {
    var vs :- StringFields(ms, StringFieldsOf(k));
    var ts :- if k == DashboardClass then TransactionsProperty(ms) else Success([]);
    Success(Build(k, vs, ts))
  }

  /**
   * The serializer registered under `name`, applied to the object's members; a
   * name with no registered serializer fails.
   */
  function DecodeRegistered(name: string, ms: Members): (r: Result<UIComponent, DecodeError>)
    ensures name !in RegisteredNames ==> r == Failure(UnknownDiscriminator(name))
    ensures r.Success? ==> SerialName(r.value) == name
  {
    match ClassNamed(name)
    case None => Failure(UnknownDiscriminator(name))
    case Some(k) => DecodeClass(k, ms)
  }

  /**
   * Polymorphic decoding of one `UIComponent`: the value must be an object whose
   * "_type" names a registered subclass, and it then decodes as that class.
   */
  function DecodeComponent(j: Json): (r: Result<UIComponent, DecodeError>)
    ensures !j.JObj? ==> r == Failure(NotAnObject)
    ensures j.JObj? && Lookup(j.members, ClassDiscriminator) in {None, Some(JNull)} ==>
      r == Failure(MissingDiscriminator)
    ensures (j.JObj? && Lookup(j.members, ClassDiscriminator) == Some(JStr(TagOf(j.members)))
             && TagOf(j.members) !in RegisteredNames) ==> r == Failure(UnknownDiscriminator(TagOf(j.members)))
    ensures r.Success? ==>
      j.JObj? && Lookup(j.members, ClassDiscriminator) == Some(JStr(SerialName(r.value)))
  {
    match j
    case JObj(ms) => (
      match Lookup(ms, ClassDiscriminator)
      case None => Failure(MissingDiscriminator)
      case Some(JNull) => Failure(MissingDiscriminator)
      case Some(JStr(name)) => DecodeRegistered(name, ms)
      case Some(_) => Failure(WrongType(ClassDiscriminator)))
    case _ => Failure(NotAnObject)
  }

  /**
   * `decodeFromString<List<UIComponent>>` with the same configuration: the value
   * must be an array, decoded by the list serializer over polymorphic components.
   */
  function DecodeList(j: Json): (r: Result<seq<UIComponent>, DecodeError>)
    ensures !j.JArr? ==> r == Failure(NotAnArray)
    ensures r.Success? <==> j.JArr? && forall i | 0 <= i < |j.elems| :: DecodeComponent(j.elems[i]).Success?
    ensures r.Success? ==>
      |r.value| == |j.elems| && forall i | 0 <= i < |j.elems| :: DecodeComponent(j.elems[i]) == Success(r.value[i])
  {
    match j
    case JArr(es) => DecodeElements(es, DecodeComponent)
    case _ => Failure(NotAnArray)
  }

  /**
   * `parseJsonToComponent`. `doc` is what the JSON syntax layer made of the text:
   * None when the text is not JSON. Every failure becomes None (Kotlin's null).
   */
  function ParseJsonToComponent(doc: Option<Json>): (r: Option<UIComponent>)
    ensures r.Some? <==> doc.Some? && DecodeComponent(doc.value).Success?
    ensures r.Some? ==> DecodeComponent(doc.value) == Success(r.value)
  {
    match doc
    case None => None
    case Some(j) =>
      match DecodeComponent(j)
      case Success(c) => Some(c)
      case Failure(_) => None
  }

  /**
   * A transaction as the serializer writes it: an object with no repeated key
   * that holds each property under its declared key.
   */
  function EncodeTransaction(t: TransactionUI): (j: Json)
    ensures j.JObj? && DistinctKeys(j.members)
    ensures forall i | 0 <= i < |TransactionFields| ::
      Lookup(j.members, TransactionFields[i]) == Some(JStr(TransactionValues(t)[i]))
  {
    var ms := StringMembers(TransactionFields, TransactionValues(t));
    assert DistinctKeys(ms) by {
      assert forall i | 0 <= i < |ms| :: ms[i].0 == TransactionFields[i];
    }
    assert forall i | 0 <= i < |TransactionFields| :: Lookup(ms, TransactionFields[i]) == Some(JStr(TransactionValues(t)[i])) by {
      forall i | 0 <= i < |TransactionFields| ensures Lookup(ms, TransactionFields[i]) == Some(JStr(TransactionValues(t)[i])) {
        assert ms[i] == (TransactionFields[i], JStr(TransactionValues(t)[i]));
        LookupDistinct(ms, TransactionFields[i], JStr(TransactionValues(t)[i]));
      }
    }
    JObj(ms)
  }

  /** The members of a component, one per declared property, in declaration order. */
  function EncodeFields(c: UIComponent): Members {
    StringMembers(StringFieldsOf(ClassOf(c)), StringValues(c)) + TransactionsMember(c)
  }

  /** The dashboard's "transactions" member; the other classes have none. */
  function TransactionsMember(c: UIComponent): Members {
    if c.DashboardUI? then [(TransactionsField, EncodeTransactions(c.transactions))] else []
  }

  /** A list of transactions as a JSON array, in order. */
  function EncodeTransactions(ts: seq<TransactionUI>): Json {
    JArr(seq(|ts|, i requires 0 <= i < |ts| => EncodeTransaction(ts[i])))
  }

  /**
   * A component as the polymorphic serializer writes it: its serial name under
   * "_type" first, then one member per declared property, in declaration order.
   */
  function EncodeComponent(c: UIComponent): (j: Json)
    ensures j.JObj? && |j.members| == 1 + |FieldsOf(ClassOf(c))|
    ensures j.members[0] == (ClassDiscriminator, JStr(SerialName(c)))
    ensures forall i | 0 <= i < |FieldsOf(ClassOf(c))| :: j.members[i + 1].0 == FieldsOf(ClassOf(c))[i]
  {
    var ms := [(ClassDiscriminator, JStr(SerialName(c)))] + EncodeFields(c);
    assert forall i | 0 <= i < |StringFieldsOf(ClassOf(c))| :: ms[i + 1].0 == FieldsOf(ClassOf(c))[i];
    JObj(ms)
  }

  /**
   * A list of components as a JSON array: one object per component, in order,
   * each carrying the serial name of the component at its position under "_type".
   */
  function EncodeList(cs: seq<UIComponent>): (j: Json)
    ensures j.JArr? && |j.elems| == |cs|
    ensures forall i | 0 <= i < |cs| ::
      j.elems[i].JObj? && Lookup(j.elems[i].members, ClassDiscriminator) == Some(JStr(SerialName(cs[i])))
  {
    JArr(seq(|cs|, i requires 0 <= i < |cs| => EncodeComponent(cs[i])))
  }
}
