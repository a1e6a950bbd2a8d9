/** Properties of the component decoder, stated over all inputs. */
module JsonParserProperties {
  import opened Wrappers
  import opened JsonValue
  import opened Components
  import opened JsonParser

  // ---------------------------------------------------------------------------
  // Reading the declared string properties of one object.
  // ---------------------------------------------------------------------------

  /** Reading string properties looks at nothing but their keys. */
  lemma {:induction false} StringFieldsReadOnlyTheirKeys(ms: Members, ms': Members, keys: seq<string>)
    requires forall i | 0 <= i < |keys| :: Lookup(ms, keys[i]) == Lookup(ms', keys[i])
    ensures StringFields(ms, keys) == StringFields(ms', keys)
  {
    if keys != [] {
      assert forall i | 1 <= i < |keys| :: keys[i] == keys[1..][i - 1];
      StringFieldsReadOnlyTheirKeys(ms, ms', keys[1..]);
    }
  }

  /**
   * Deleting one of the keys from an object whose string properties all read
   * makes the read fail, naming that key.
   */
  lemma {:induction false} StringFieldsMissing(ms: Members, keys: seq<string>, key: string)
    requires StringFields(ms, keys).Success? && key in keys
    ensures StringFields(Remove(ms, key), keys) == Failure(MissingField(key))
  {
    if keys[0] != key {
      LookupRemoveOther(ms, key, keys[0]);
      assert forall i | 1 <= i < |keys| :: keys[i] == keys[1..][i - 1];
      StringFieldsMissing(ms, keys[1..], key);
    }
  }

  /**
   * An object written from distinct keys reads back, under those keys, the
   * values written, when nothing before or after repeats one of those keys.
   */
  lemma StringFieldsOfEncoding(pre: Members, keys: seq<string>, vals: seq<string>, post: Members)
    requires |keys| == |vals|
    requires forall a, b | 0 <= a < b < |keys| :: keys[a] != keys[b]
    requires forall i | 0 <= i < |keys| :: keys[i] !in Keys(pre) && keys[i] !in Keys(post)
    ensures StringFields(pre + StringMembers(keys, vals) + post, keys) == Success(vals)
  {
    var mid := StringMembers(keys, vals);
    assert pre + mid + post == pre + (mid + post);
    forall i | 0 <= i < |keys| ensures Lookup(pre + mid + post, keys[i]) == Some(JStr(vals[i])) {
      LookupAppend(pre, mid + post, keys[i]);
      LookupAppend(mid, post, keys[i]);
      assert mid[i] == (keys[i], JStr(vals[i]));
      LookupStringMembers(keys, vals, i);
    }
    var r := StringFields(pre + mid + post, keys);
    assert r.Success?;
    assert r.value == vals;
  }

  // ---------------------------------------------------------------------------
  // Lists: the list serializer over any element decoder.
  // ---------------------------------------------------------------------------

  /** Two lists whose elements decode alike, position by position, decode alike. */
  lemma {:induction false} ElementsPointwise<T>(es: seq<Json>, fs: seq<Json>, decode: Json -> Result<T, DecodeError>)
    requires |es| == |fs| && forall i | 0 <= i < |es| :: decode(es[i]) == decode(fs[i])
    ensures DecodeElements(es, decode) == DecodeElements(fs, decode)
  {
    if es != [] {
      assert forall i | 1 <= i < |es| :: es[1..][i - 1] == es[i] && fs[1..][i - 1] == fs[i];
      ElementsPointwise(es[1..], fs[1..], decode);
    }
  }

  /** A list whose every element decodes, position by position, to `vs` decodes to `vs`. */
  lemma ElementsDecodeTo<T>(es: seq<Json>, vs: seq<T>, decode: Json -> Result<T, DecodeError>)
    requires |es| == |vs| && forall i | 0 <= i < |es| :: decode(es[i]) == Success(vs[i])
    ensures DecodeElements(es, decode) == Success(vs)
  {
    var r := DecodeElements(es, decode);
    assert r.Success?;
    assert r.value == vs;
  }

  /**
   * Elements are decoded in order and the first failure ends the decode: when
   * every element before position i decodes and the one at i fails, the whole
   * list fails with the error of the element at i.
   */
  lemma {:induction false} FirstFailureReported<T>(es: seq<Json>, i: nat, decode: Json -> Result<T, DecodeError>)
    requires i < |es| && decode(es[i]).Failure?
    requires forall h | 0 <= h < i :: decode(es[h]).Success?
    ensures DecodeElements(es, decode) == Failure(decode(es[i]).error)
  {
    if i > 0 {
      assert forall h | 0 <= h < i - 1 :: es[1..][h] == es[h + 1];
      FirstFailureReported(es[1..], i - 1, decode);
    }
  }

  /** Lists decode piecewise: the decode of a concatenation is the concatenation of the decodes. */
  lemma {:induction false} DecodeConcat<T>(es: seq<Json>, fs: seq<Json>, decode: Json -> Result<T, DecodeError>)
    ensures DecodeElements(es + fs, decode) ==
      match DecodeElements(es, decode)
      case Failure(e) => Failure(e)
      case Success(cs) => (
        match DecodeElements(fs, decode)
        case Failure(e) => Failure(e)
        case Success(ds) => Success(cs + ds))
  {
    if es == [] {
      assert es + fs == fs;
      match DecodeElements(fs, decode)
      case Failure(_) =>
      case Success(ds) => assert [] + ds == ds;
    } else {
      assert (es + fs)[0] == es[0];
      assert (es + fs)[1..] == es[1..] + fs;
      DecodeConcat(es[1..], fs, decode);
      match decode(es[0])
      case Failure(_) =>
      case Success(c) =>
        match DecodeElements(es[1..], decode)
        case Failure(_) =>
        case Success(cs) =>
          match DecodeElements(fs, decode)
          case Failure(_) =>
          case Success(ds) =>
            assert [c] + (cs + ds) == ([c] + cs) + ds;
    }
  }

  /**
   * All or nothing: a failing element written anywhere in a list of components
   * fails the whole list, and, if every element before it decodes, with its
   * own error.
   */
  lemma FailingElementFailsList(es: seq<Json>, i: nat, bad: Json)
    requires i <= |es| && DecodeComponent(bad).Failure?
    ensures DecodeList(JArr(es[..i] + [bad] + es[i..])).Failure?
    ensures DecodeElements(es[..i], DecodeComponent).Success? ==>
      DecodeList(JArr(es[..i] + [bad] + es[i..])) == Failure(DecodeComponent(bad).error)
  {
    var es' := es[..i] + [bad] + es[i..];
    assert es'[i] == bad;
    if DecodeElements(es[..i], DecodeComponent).Success? {
      assert forall h | 0 <= h < i :: es'[h] == es[..i][h];
      FirstFailureReported(es', i, DecodeComponent);
    }
  }

  /** An empty array decodes to an empty list, not to an error; anything but an array is an error. */
  lemma EmptyListDecodes(j: Json)
    ensures DecodeList(JArr([])) == Success([])
    ensures !j.JArr? ==> DecodeList(j) == Failure(NotAnArray)
  {
  }

  /** Decoding a list keeps the order: each result has the serial name the element at its position carries. */
  lemma ListOrderPreserved(es: seq<Json>)
    requires DecodeList(JArr(es)).Success?
    ensures var cs := DecodeList(JArr(es)).value;
      |cs| == |es| && forall i | 0 <= i < |es| :: es[i].JObj? && SerialName(cs[i]) == TagOf(es[i].members)
  {
  }

  // ---------------------------------------------------------------------------
  // One component: dispatch, unknown keys, required properties.
  // ---------------------------------------------------------------------------

  /**
   * Decoding reads nothing but the discriminator and the properties the
   * selected class declares: two objects that agree on those keys decode alike.
   */
  lemma DecodeReadsOnlyDeclaredKeys(ms: Members, ms': Members)
    requires Lookup(ms, ClassDiscriminator) == Lookup(ms', ClassDiscriminator)
    requires forall key | key in FieldsNamed(TagOf(ms)) :: Lookup(ms, key) == Lookup(ms', key)
    ensures DecodeComponent(JObj(ms)) == DecodeComponent(JObj(ms'))
  {
    match ClassNamed(TagOf(ms))
    case None =>
    case Some(k) => ClassReadsOnlyDeclaredKeys(k, ms, ms');
  }

  /** The serializer of one class reads nothing but the properties that class declares. */
  lemma ClassReadsOnlyDeclaredKeys(k: ComponentClass, ms: Members, ms': Members)
    requires forall key | key in FieldsOf(k) :: Lookup(ms, key) == Lookup(ms', key)
    ensures DecodeClass(k, ms) == DecodeClass(k, ms')
  {
    var keys := StringFieldsOf(k);
    assert forall i | 0 <= i < |keys| :: keys[i] == FieldsOf(k)[i];
    StringFieldsReadOnlyTheirKeys(ms, ms', keys);
    if k == DashboardClass {
      assert FieldsOf(k)[|keys|] == TransactionsField;
    }
  }

  /** A transaction reads nothing but its four declared properties. */
  lemma TransactionReadsOnlyDeclaredKeys(ms: Members, ms': Members)
    requires forall k | k in TransactionFields :: Lookup(ms, k) == Lookup(ms', k)
    ensures DecodeTransaction(JObj(ms)) == DecodeTransaction(JObj(ms'))
  {
    StringFieldsReadOnlyTheirKeys(ms, ms', TransactionFields);
  }

  /**
   * `ignoreUnknownKeys = true`: a member whose key the selected class does not
   * declare may be written anywhere in the object without changing the outcome,
   * value or error.
   */
  lemma UnknownKeyIgnored(ms: Members, i: nat, key: string, v: Json)
    requires i <= |ms|
    requires key != ClassDiscriminator && key !in FieldsNamed(TagOf(ms))
    ensures DecodeComponent(JObj(Insert(ms, i, key, v))) == DecodeComponent(JObj(ms))
  {
    var ms' := Insert(ms, i, key, v);
    forall k | k != key ensures Lookup(ms', k) == Lookup(ms, k) {
      LookupInsertOther(ms, i, key, v, k);
    }
    DecodeReadsOnlyDeclaredKeys(ms, ms');
  }

  /** The same for a transaction, where "_type" too is merely an unknown key. */
  lemma TransactionUnknownKeyIgnored(ms: Members, i: nat, key: string, v: Json)
    requires i <= |ms| && key !in TransactionFields
    ensures DecodeTransaction(JObj(Insert(ms, i, key, v))) == DecodeTransaction(JObj(ms))
  {
    var ms' := Insert(ms, i, key, v);
    forall k | k != key ensures Lookup(ms', k) == Lookup(ms, k) {
      LookupInsertOther(ms, i, key, v, k);
    }
    TransactionReadsOnlyDeclaredKeys(ms, ms');
  }

  /**
   * A dashboard's transactions are concrete `TransactionUI` values: writing a
   * "_type" member, of any value, into one of them changes nothing.
   */
  lemma NestedDiscriminatorIgnored(es: seq<Json>, n: nat, i: nat, v: Json)
    requires n < |es| && es[n].JObj? && i <= |es[n].members|
    ensures DecodeElements(es[n := JObj(Insert(es[n].members, i, ClassDiscriminator, v))], DecodeTransaction)
         == DecodeElements(es, DecodeTransaction)
  {
    TransactionUnknownKeyIgnored(es[n].members, i, ClassDiscriminator, v);
    ElementsPointwise(es[n := JObj(Insert(es[n].members, i, ClassDiscriminator, v))], es, DecodeTransaction);
  }

  /**
   * Every declared property is required: deleting any one of them from an
   * object that decodes makes the decode fail, naming that property.
   */
  lemma MissingDeclaredFieldFails(ms: Members, key: string)
    requires DecodeComponent(JObj(ms)).Success? && key in FieldsNamed(TagOf(ms))
    ensures DecodeComponent(JObj(Remove(ms, key))) == Failure(MissingField(key))
  {
    var k := ClassOf(DecodeComponent(JObj(ms)).value);
    var ms' := Remove(ms, key);
    var keys := StringFieldsOf(k);
    DecodedByClass(ms);
    RegistryUnambiguous(k, k);
    assert TagOf(ms) == SerialNameOf(k);
    assert key in FieldsOf(k);
    FieldsOfWellFormed(k);
    LookupRemoveOther(ms, key, ClassDiscriminator);
    DispatchOnTag(ms', k);
    if key in keys {
      StringFieldsMissing(ms, keys, key);
    } else {
      assert k == DashboardClass && key == TransactionsField;
      forall i | 0 <= i < |keys| ensures Lookup(ms, keys[i]) == Lookup(ms', keys[i]) {
        LookupRemoveOther(ms, key, keys[i]);
      }
      StringFieldsReadOnlyTheirKeys(ms, ms', keys);
    }
  }

  /**
   * Dispatch: an object decodes only when its "_type" is a registered serial
   * name, and then to an instance of the class registered under that name; any
   * other "_type", or none, makes the decode fail.
   */
  lemma DispatchByDiscriminator(ms: Members)
    ensures DecodeComponent(JObj(ms)).Success? ==>
      TagOf(ms) in RegisteredNames && ClassNamed(TagOf(ms)) == Some(ClassOf(DecodeComponent(JObj(ms)).value))
    ensures TagOf(ms) !in RegisteredNames ==> DecodeComponent(JObj(ms)).Failure?
  {
    if DecodeComponent(JObj(ms)).Success? {
      var k := ClassOf(DecodeComponent(JObj(ms)).value);
      DecodedByClass(ms);
      RegistryUnambiguous(k, k);
    }
  }

  /** An empty serial name is no registered name: `"_type": ""` fails naming it. */
  lemma EmptyTagFails(ms: Members)
    requires Lookup(ms, ClassDiscriminator) == Some(JStr(""))
    ensures DecodeComponent(JObj(ms)) == Failure(UnknownDiscriminator(""))
  {
    assert "" !in RegisteredNames;
  }

  /** Deleting the discriminator always makes the decode fail. */
  lemma MissingDiscriminatorFails(ms: Members)
    ensures DecodeComponent(JObj(Remove(ms, ClassDiscriminator))) == Failure(MissingDiscriminator)
  {
  }

  /** Every property of a transaction is required. */
  lemma MissingTransactionFieldFails(ms: Members, key: string)
    requires DecodeTransaction(JObj(ms)).Success? && key in TransactionFields
    ensures DecodeTransaction(JObj(Remove(ms, key))) == Failure(MissingField(key))
  {
    StringFieldsMissing(ms, TransactionFields, key);
  }

  /**
   * Every string property, `type` included, is copied verbatim: the i-th
   * declared string property of the decoded value is the string stored under
   * the i-th declared key. `type` is never compared with "_type"; only "_type"
   * chooses the class.
   */
  lemma StringPropertiesCopied(ms: Members)
    requires DecodeComponent(JObj(ms)).Success?
    ensures var c := DecodeComponent(JObj(ms)).value;
      && TagOf(ms) == SerialName(c)
      && Lookup(ms, "type") == Some(JStr(c.Type()))
      && forall i | 0 <= i < |StringFieldsOf(ClassOf(c))| ::
           Lookup(ms, StringFieldsOf(ClassOf(c))[i]) == Some(JStr(StringValues(c)[i]))
  {
    var c := DecodeComponent(JObj(ms)).value;
    DecodedByClass(ms);
    FieldsOfWellFormed(ClassOf(c));
    assert StringFieldsOf(ClassOf(c))[0] == "type";
  }

  /**
   * The converse: an object whose "_type" is the serial name of a component and
   * whose declared keys hold that component's properties (for a dashboard, an
   * array whose elements decode to its transactions) decodes to that component.
   */
  lemma DecodesFromDeclaredKeys(ms: Members, c: UIComponent, es: seq<Json>)
    requires Lookup(ms, ClassDiscriminator) == Some(JStr(SerialName(c)))
    requires forall i | 0 <= i < |StringFieldsOf(ClassOf(c))| ::
      Lookup(ms, StringFieldsOf(ClassOf(c))[i]) == Some(JStr(StringValues(c)[i]))
    requires c.DashboardUI? ==>
      Lookup(ms, TransactionsField) == Some(JArr(es)) && DecodeElements(es, DecodeTransaction) == Success(c.transactions)
    ensures DecodeComponent(JObj(ms)) == Success(c)
  {
    var r := StringFields(ms, StringFieldsOf(ClassOf(c)));
    assert r.Success?;
    assert r.value == StringValues(c);
    DispatchOnTag(ms, ClassOf(c));
    DecodeClassRebuilds(c, ms);
  }

  /** The same for a transaction read as a concrete class. */
  lemma TransactionFromDeclaredKeys(ms: Members, t: TransactionUI)
    requires forall i | 0 <= i < |TransactionFields| :: Lookup(ms, TransactionFields[i]) == Some(JStr(TransactionValues(t)[i]))
    ensures DecodeTransaction(JObj(ms)) == Success(t)
  {
    var r := StringFields(ms, TransactionFields);
    assert r.Success?;
    assert r.value == TransactionValues(t);
  }

  /**
   * For an object with no repeated key, holding the members is enough: an
   * object that holds the discriminator and every declared property of `c`
   * (for a dashboard, an array whose elements decode to its transactions)
   * decodes to `c`, whatever else it holds.
   */
  lemma DecodesFromMembers(ms: Members, c: UIComponent, es: seq<Json>)
    requires DistinctKeys(ms) && (ClassDiscriminator, JStr(SerialName(c))) in ms
    requires forall i | 0 <= i < |StringFieldsOf(ClassOf(c))| ::
      (StringFieldsOf(ClassOf(c))[i], JStr(StringValues(c)[i])) in ms
    requires c.DashboardUI? ==>
      && (TransactionsField, JArr(es)) in ms && |es| == |c.transactions|
      && forall i | 0 <= i < |es| :: DecodeTransaction(es[i]) == Success(c.transactions[i])
    ensures DecodeComponent(JObj(ms)) == Success(c)
  {
    var keys := StringFieldsOf(ClassOf(c));
    forall i | 0 <= i < |keys| ensures Lookup(ms, keys[i]) == Some(JStr(StringValues(c)[i])) {
      LookupDistinct(ms, keys[i], JStr(StringValues(c)[i]));
    }
    LookupDistinct(ms, ClassDiscriminator, JStr(SerialName(c)));
    if c.DashboardUI? {
      LookupDistinct(ms, TransactionsField, JArr(es));
      ElementsDecodeTo(es, c.transactions, DecodeTransaction);
    }
    DecodesFromDeclaredKeys(ms, c, es);
  }

  /** The same for a transaction read as a concrete class. */
  lemma TransactionFromMembers(ms: Members, t: TransactionUI)
    requires DistinctKeys(ms)
    requires forall i | 0 <= i < |TransactionFields| :: (TransactionFields[i], JStr(TransactionValues(t)[i])) in ms
    ensures DecodeTransaction(JObj(ms)) == Success(t)
  {
    forall i | 0 <= i < |TransactionFields| ensures Lookup(ms, TransactionFields[i]) == Some(JStr(TransactionValues(t)[i])) {
      LookupDistinct(ms, TransactionFields[i], JStr(TransactionValues(t)[i]));
    }
    TransactionFromDeclaredKeys(ms, t);
  }

  /**
   * A top-level "transaction" is read by the same serializer as the elements
   * of a dashboard's list.
   */
  lemma TopLevelTransaction(ms: Members)
    requires TagOf(ms) == "transaction"
    ensures DecodeComponent(JObj(ms)) ==
      match DecodeTransaction(JObj(ms))
      case Success(t) => Success(Transaction(t))
      case Failure(e) => Failure(e)
  {
    assert Lookup(ms, ClassDiscriminator) == Some(JStr(SerialNameOf(TransactionClass)));
    DispatchOnTag(ms, TransactionClass);
    assert StringFieldsOf(TransactionClass) == TransactionFields;
    match StringFields(ms, TransactionFields)
    case Failure(_) =>
    case Success(vs) => assert Build(TransactionClass, vs, []) == Transaction(TransactionUI(vs[0], vs[1], vs[2], vs[3]));
  }

  /**
   * A dashboard's transactions: the array under "transactions" has as many
   * elements as the decoded list, and each element decodes to the transaction
   * at the same position.
   */
  lemma DashboardTransactionsInOrder(ms: Members)
    requires DecodeComponent(JObj(ms)).Success? && TagOf(ms) == "dashboard"
    ensures var c := DecodeComponent(JObj(ms)).value;
      && c.DashboardUI?
      && Lookup(ms, TransactionsField).Some? && Lookup(ms, TransactionsField).value.JArr?
      && var es := Lookup(ms, TransactionsField).value.elems;
         |es| == |c.transactions| &&
         forall i | 0 <= i < |es| :: DecodeTransaction(es[i]) == Success(c.transactions[i])
  {
    var c := DecodeComponent(JObj(ms)).value;
    DecodedByClass(ms);
    RegistryUnambiguous(ClassOf(c), DashboardClass);
  }

  /** The order of an object's members does not matter when no key is repeated. */
  lemma ReorderingIgnored(ms: Members, ms': Members)
    requires DistinctKeys(ms) && DistinctKeys(ms') && multiset(ms) == multiset(ms')
    ensures DecodeComponent(JObj(ms)) == DecodeComponent(JObj(ms'))
  {
    forall k ensures Lookup(ms, k) == Lookup(ms', k) {
      LookupPermutation(ms, ms', k);
    }
    DecodeReadsOnlyDeclaredKeys(ms, ms');
  }

  // ---------------------------------------------------------------------------
  // Round trips.
  // ---------------------------------------------------------------------------

  /** Encoding a transaction and decoding it gives the transaction back. */
  lemma TransactionRoundTrip(t: TransactionUI)
    ensures DecodeTransaction(EncodeTransaction(t)) == Success(t)
  {
    FieldsOfWellFormed(TransactionClass);
    StringFieldsOfEncoding([], TransactionFields, TransactionValues(t), []);
    assert [] + StringMembers(TransactionFields, TransactionValues(t)) + [] == EncodeTransaction(t).members;
  }

  /** Encoding a list of transactions and decoding it gives the list back. */
  lemma TransactionsRoundTrip(ts: seq<TransactionUI>)
    ensures DecodeElements(EncodeTransactions(ts).elems, DecodeTransaction) == Success(ts)
  {
    var es := EncodeTransactions(ts).elems;
    forall i | 0 <= i < |ts| ensures DecodeTransaction(es[i]) == Success(ts[i]) {
      TransactionRoundTrip(ts[i]);
    }
    ElementsDecodeTo(es, ts, DecodeTransaction);
  }

  /** The serializer of a class rebuilds any component whose properties it reads back. */
  lemma DecodeClassRebuilds(c: UIComponent, ms: Members)
    requires StringFields(ms, StringFieldsOf(ClassOf(c))) == Success(StringValues(c))
    requires c.DashboardUI? ==> TransactionsProperty(ms) == Success(c.transactions)
    ensures DecodeClass(ClassOf(c), ms) == Success(c)
  {
    BuildInverse(c);
  }

  /** The serializer registered under a class's serial name is that class's serializer. */
  lemma RegisteredDispatch(k: ComponentClass, ms: Members)
    ensures DecodeRegistered(SerialNameOf(k), ms) == DecodeClass(k, ms)
  {
    RegistryUnambiguous(k, k);
  }

  /** An object whose "_type" is the serial name of a class decodes with that class's serializer. */
  lemma DispatchOnTag(ms: Members, k: ComponentClass)
    requires Lookup(ms, ClassDiscriminator) == Some(JStr(SerialNameOf(k)))
    ensures DecodeComponent(JObj(ms)) == DecodeClass(k, ms)
  {
    assert DecodeComponent(JObj(ms)) == DecodeRegistered(SerialNameOf(k), ms);
    RegisteredDispatch(k, ms);
  }

  /** A component that decodes was read by the serializer of its own class, selected by "_type". */
  lemma DecodedByClass(ms: Members)
    requires DecodeComponent(JObj(ms)).Success?
    ensures var c := DecodeComponent(JObj(ms)).value;
      Lookup(ms, ClassDiscriminator) == Some(JStr(SerialName(c))) && DecodeClass(ClassOf(c), ms) == Success(c)
  {
    DispatchOnTag(ms, ClassOf(DecodeComponent(JObj(ms)).value));
  }

  /** An encoded component carries its serial name under "_type". */
  lemma EncodedDiscriminator(c: UIComponent)
    ensures Lookup(EncodeComponent(c).members, ClassDiscriminator) == Some(JStr(SerialName(c)))
  {
  }

  /** An encoded component carries its string properties under their keys. */
  lemma EncodedStringFields(c: UIComponent)
    ensures StringFields(EncodeComponent(c).members, StringFieldsOf(ClassOf(c))) == Success(StringValues(c))
  {
    var head: Members := [(ClassDiscriminator, JStr(SerialName(c)))];
    var keys := StringFieldsOf(ClassOf(c));
    FieldsOfWellFormed(ClassOf(c));
    assert forall i | 0 <= i < |keys| :: keys[i] == FieldsOf(ClassOf(c))[i];
    assert EncodeComponent(c).members == head + StringMembers(keys, StringValues(c)) + TransactionsMember(c);
    assert forall i | 0 <= i < |keys| :: keys[i] !in Keys(TransactionsMember(c)) by {
      if c.DashboardUI? {
        assert FieldsOf(ClassOf(c))[|keys|] == TransactionsField;
        assert Keys(TransactionsMember(c)) == {TransactionsField};
      }
    }
    StringFieldsOfEncoding(head, keys, StringValues(c), TransactionsMember(c));
  }

  /** An encoded dashboard carries its encoded transactions under "transactions". */
  lemma EncodedTransactions(c: UIComponent)
    requires c.DashboardUI?
    ensures Lookup(EncodeComponent(c).members, TransactionsField) == Some(EncodeTransactions(c.transactions))
  {
    var ms := EncodeComponent(c).members;
    assert ms[3] == (TransactionsField, EncodeTransactions(c.transactions));
    assert ms[0].0 != TransactionsField && ms[1].0 != TransactionsField && ms[2].0 != TransactionsField;
    assert ms == ms[..3] + [ms[3]];
    LookupAppend(ms[..3], [ms[3]], TransactionsField);
  }

  /** Encoding a component and decoding it gives an equal component, for every variant. */
  lemma RoundTrip(c: UIComponent)
    ensures DecodeComponent(EncodeComponent(c)) == Success(c)
  {
    var ms := EncodeComponent(c).members;
    var es := EncodeTransactions(TransactionsOf(c)).elems;
    EncodedDiscriminator(c);
    EncodedStringFields(c);
    if c.DashboardUI? {
      EncodedTransactions(c);
      TransactionsRoundTrip(c.transactions);
    }
    DecodesFromDeclaredKeys(ms, c, es);
  }

  /** `parseJsonToComponent` gives back every encoded component. */
  lemma ParseRoundTrip(c: UIComponent)
    ensures ParseJsonToComponent(Some(EncodeComponent(c))) == Some(c)
  {
    RoundTrip(c);
  }

  /** A list of encoded components decodes to the same list, in the same order. */
  lemma ListRoundTrip(cs: seq<UIComponent>)
    ensures DecodeList(EncodeList(cs)) == Success(cs)
  {
    var es := EncodeList(cs).elems;
    forall i | 0 <= i < |cs| ensures DecodeComponent(es[i]) == Success(cs[i]) {
      RoundTrip(cs[i]);
    }
    ElementsDecodeTo(es, cs, DecodeComponent);
  }

  /** The encoder writes no key twice, at any depth, so no round trip relies on duplicate keys. */
  lemma EncodeWellFormed(c: UIComponent)
    ensures WellFormed(EncodeComponent(c))
  {
    var k := ClassOf(c);
    var ms := EncodeComponent(c).members;
    FieldsOfWellFormed(k);
    forall i, j | 0 <= i < j < |ms| ensures ms[i].0 != ms[j].0 {
      assert i > 0 ==> ms[i].0 == FieldsOf(k)[i - 1];
      assert ms[j].0 == FieldsOf(k)[j - 1];
    }
    if c.DashboardUI? {
      EncodeTransactionsWellFormed(c.transactions);
    }
  }

  /** The same for a list of transactions. */
  lemma EncodeTransactionsWellFormed(ts: seq<TransactionUI>)
    ensures WellFormed(EncodeTransactions(ts))
  {
    forall t | t in ts ensures WellFormed(EncodeTransaction(t)) {
      var tms := EncodeTransaction(t).members;
      forall i, j | 0 <= i < j < |tms| ensures tms[i].0 != tms[j].0 {
        assert tms[i].0 == TransactionFields[i] && tms[j].0 == TransactionFields[j];
      }
    }
  }
}
