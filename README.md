# Server-driven UI: the polymorphic component decoder

This project models `JsonParser.kt` of the server-driven UI (SDUI) demo app.
The server sends a JSON array of UI component descriptors. The client decodes
each descriptor into one of six Kotlin data classes behind the sealed interface
`UIComponent`: `BannerUI`, `CardUI`, `ButtonUI`, `ProductUI`, `TransactionUI`
and `DashboardUI`. It does this with kotlinx.serialization in a fixed
configuration:

- every data class is registered for polymorphic decoding under its `@SerialName`;
- the wire key that carries that name is `"_type"` (`classDiscriminator`);
- keys that a class does not declare are skipped (`ignoreUnknownKeys = true`).

`parseJsonToComponent` decodes one component and turns every failure into
`null`. The demo screen decodes a whole list with the same configuration.

The model is pure, as the source is: datatypes, functions and lemmas.

- `wrappers.dfy`: `Option` and `Result`.
- `json.dfy`: the JSON tree the decoder reads. Objects are sequences of
  members in written order. `Lookup`, `Insert` and `Remove` are defined with
  their laws.
- `components.dfy`: the schema. It holds the six variants, the six classes
  with their serial names, the registration list, each class's declared
  properties in declaration order, and each class's constructor (`Build`).
- `json_parser.dfy`: the decoder.
  - One serializer per class (`DecodeClass`): every declared property is
    required; each string property must be a JSON string, not null; the
    dashboard's `transactions` must be an array of transactions.
  - Dispatch on `"_type"` (`DecodeRegistered`, `DecodeComponent`).
  - The list serializer (`DecodeElements`, `DecodeList`).
  - `ParseJsonToComponent`.
  - The encoder (`EncodeComponent`, `EncodeList`). It is the inverse the
    round-trip properties are stated against.
- `properties.dfy`: properties over all inputs. They cover dispatch, unknown
  keys, required properties, copying of properties, order and all-or-nothing
  of lists, independence from member order, and round trips.
- `sample_payload.dfy`: the demo screen's inline payload as JSON values. The
  first eight elements decode to the expected components in order. The whole
  list fails at the `"chart"` element, because no class is registered under
  that name.

A decode failure is a `DecodeError` value instead of an exception:
`NotAnArray`, `NotAnObject`, `MissingDiscriminator`,
`UnknownDiscriminator(name)`, `MissingField(key)` or `WrongType(key)`.

The model follows the code on these points:

- A missing or null `"_type"` is reported as `MissingDiscriminator`, not as
  an unknown discriminator.
- The `type` property is never compared with `"_type"`. Only `"_type"`
  chooses the class (`TypePropertyDoesNotDispatch`).
- The elements of a dashboard's `transactions` are read as the concrete class
  `TransactionUI`. Any `"_type"` inside them is an unknown key and is ignored.
- The demo screen's list decode (MainActivity.kt:224) is not wrapped in a
  `try`. In the app a failing list throws out of the screen, and the
  `components != null` test after it is always true. Only
  `parseJsonToComponent` turns failure into `null`.

## Model

| member | source | states |
|---|---|---|
| Components.ClassNamed | app/src/main/java/com/thisux/sdui/JsonParser.kt:76-85 | a name selects a registered class exactly when it is one of the six registered serial names, and the selected class has that serial name |
| Components.RegistryUnambiguous | app/src/main/java/com/thisux/sdui/JsonParser.kt:76-85 | every class is registered and selected by its own `@SerialName`; two classes share a serial name only if they are the same class |
| Components.RegisteredNamesOfRegistry | app/src/main/java/com/thisux/sdui/JsonParser.kt:78-83 | the registered names are the serial names of the six `subclass` registrations, in registration order |
| Components.StringValues | app/src/main/java/com/thisux/sdui/JsonParser.kt:11-70 | a component has one string value per declared string property, and the first is its `type` |
| Components.Build | app/src/main/java/com/thisux/sdui/JsonParser.kt:16-70 | a class's constructor makes an instance of that class whose string properties are the given values, and a dashboard holds the given transactions |
| Components.BuildInverse | app/src/main/java/com/thisux/sdui/JsonParser.kt:16-70 | every component is rebuilt by its class's constructor from its own properties |
| Components.FieldsOfWellFormed | app/src/main/java/com/thisux/sdui/JsonParser.kt:16-70 | every class declares `type` first and no property twice, and no class declares the discriminator key `"_type"` |
| JsonParser.StringField | app/src/main/java/com/thisux/sdui/JsonParser.kt:19-23 | a required non-null `String` property reads exactly when its key holds a JSON string, and then to that string; a missing key fails naming it, and any other value, null included, fails as the wrong type |
| JsonParser.StringFields | app/src/main/java/com/thisux/sdui/JsonParser.kt:16-70 | the required non-null `String` properties read exactly when every key holds a JSON string, and then each value is the string under its key |
| JsonParser.DecodeElements | app/src/main/java/com/thisux/sdui/MainActivity.kt:224 | a list decodes exactly when every element does, and then it has one value per element, each the decode of the element at its position |
| JsonParser.DecodeTransaction | app/src/main/java/com/thisux/sdui/JsonParser.kt:54-61 | a `TransactionUI` decodes exactly when the value is an object whose four properties are strings, and it is the transaction they make |
| JsonParser.TransactionsProperty | app/src/main/java/com/thisux/sdui/JsonParser.kt:69 | the required `transactions` list reads exactly when its key holds an array whose every element decodes as a transaction, and then to one transaction per element, in order; a missing key fails naming it |
| JsonParser.DecodeClass | app/src/main/java/com/thisux/sdui/JsonParser.kt:16-70 | a class's serializer yields only instances of that class, each string property being the string stored under its key |
| JsonParser.DecodeRegistered | app/src/main/java/com/thisux/sdui/JsonParser.kt:76-85 | a name with no registered subclass fails with that name; a success has that serial name |
| JsonParser.DecodeComponent | app/src/main/java/com/thisux/sdui/JsonParser.kt:87-91 | a non-object fails; a missing or null `"_type"` fails; an unregistered `"_type"` fails naming it; a success is an object whose `"_type"` is the result's serial name |
| JsonParser.DecodeList | app/src/main/java/com/thisux/sdui/MainActivity.kt:224 | a non-array fails; an array decodes exactly when every element decodes as a component, and then to one component per element, each the decode of the element at its position |
| JsonParser.EncodeTransaction | app/src/main/java/com/thisux/sdui/JsonParser.kt:54-61 | a transaction is written as an object with no repeated key that holds each property under its declared key |
| JsonParser.EncodeComponent | app/src/main/java/com/thisux/sdui/JsonParser.kt:76-91 | a component is written with its serial name under `"_type"` first, then one member per declared property, in declaration order |
| JsonParser.EncodeList | app/src/main/java/com/thisux/sdui/MainActivity.kt:224 | a list is written as an array with one object per component, in order, each carrying its component's serial name under `"_type"` |
| JsonParser.ParseJsonToComponent | app/src/main/java/com/thisux/sdui/JsonParser.kt:93-100 | the result is non-null exactly when the document is JSON and decodes as a component, and then it is that component; every failure becomes null |
| JsonParserProperties.StringFieldsReadOnlyTheirKeys | app/src/main/java/com/thisux/sdui/JsonParser.kt:16-70 | reading the string properties depends on nothing but the values under their keys |
| JsonParserProperties.StringFieldsMissing | app/src/main/java/com/thisux/sdui/JsonParser.kt:16-70 | deleting any one required string property fails the read with that property's name |
| JsonParserProperties.StringFieldsOfEncoding | app/src/main/java/com/thisux/sdui/JsonParser.kt:16-70 | string properties written under distinct keys are read back as written, whatever surrounds them, provided nothing around them repeats one of those keys |
| JsonParserProperties.ElementsPointwise | app/src/main/java/com/thisux/sdui/MainActivity.kt:224 | two lists whose elements decode alike position by position decode alike |
| JsonParserProperties.ElementsDecodeTo | app/src/main/java/com/thisux/sdui/MainActivity.kt:224 | a list whose every element decodes to the value at its position decodes to the list of those values |
| JsonParserProperties.FirstFailureReported | app/src/main/java/com/thisux/sdui/MainActivity.kt:224 | when every element before position i decodes and the one at i fails, the list fails with the error of the element at i |
| JsonParserProperties.DecodeConcat | app/src/main/java/com/thisux/sdui/MainActivity.kt:224 | the decode of a concatenation is the concatenation of the decodes, and fails when either part fails |
| JsonParserProperties.FailingElementFailsList | app/src/main/java/com/thisux/sdui/MainActivity.kt:224 | a failing element anywhere fails the whole list (no partial list), with its own error when everything before it decodes |
| JsonParserProperties.EmptyListDecodes | app/src/main/java/com/thisux/sdui/MainActivity.kt:224 | an empty array decodes to the empty list; anything but an array fails |
| JsonParserProperties.ListOrderPreserved | app/src/main/java/com/thisux/sdui/MainActivity.kt:224 | a decoded list has one component per element, in order, each with the serial name the element at its position carries |
| JsonParserProperties.DecodeReadsOnlyDeclaredKeys | app/src/main/java/com/thisux/sdui/JsonParser.kt:87-91 | two objects that agree on `"_type"` and on the properties of the class it selects decode alike |
| JsonParserProperties.ClassReadsOnlyDeclaredKeys | app/src/main/java/com/thisux/sdui/JsonParser.kt:16-70 | a class's serializer depends on nothing but the properties that class declares |
| JsonParserProperties.TransactionReadsOnlyDeclaredKeys | app/src/main/java/com/thisux/sdui/JsonParser.kt:54-61 | a transaction depends on nothing but its four declared properties |
| JsonParserProperties.UnknownKeyIgnored | app/src/main/java/com/thisux/sdui/JsonParser.kt:88 | a member under a key the selected class does not declare, written anywhere in the object, changes neither the value nor the error |
| JsonParserProperties.TransactionUnknownKeyIgnored | app/src/main/java/com/thisux/sdui/JsonParser.kt:88 | the same for a transaction read as a concrete class |
| JsonParserProperties.NestedDiscriminatorIgnored | app/src/main/java/com/thisux/sdui/JsonParser.kt:64-70 | a `"_type"` of any value written into a dashboard's transaction leaves the decoded list unchanged |
| JsonParserProperties.MissingDeclaredFieldFails | app/src/main/java/com/thisux/sdui/JsonParser.kt:16-70 | deleting any declared property, `transactions` included, from an object that decodes fails the decode with that property's name |
| JsonParserProperties.DispatchByDiscriminator | app/src/main/java/com/thisux/sdui/JsonParser.kt:76-91 | an object decodes only when its `"_type"` is a registered name, and then to the class registered under it; any other `"_type"`, or none, fails |
| JsonParserProperties.EmptyTagFails | app/src/main/java/com/thisux/sdui/JsonParser.kt:76-90 | an object whose `"_type"` is the empty string fails, naming it, because no class is registered under it |
| JsonParserProperties.MissingDiscriminatorFails | app/src/main/java/com/thisux/sdui/JsonParser.kt:90 | an object without `"_type"` always fails with a missing discriminator |
| JsonParserProperties.MissingTransactionFieldFails | app/src/main/java/com/thisux/sdui/JsonParser.kt:54-61 | deleting any of a transaction's four properties fails it with that property's name |
| JsonParserProperties.StringPropertiesCopied | app/src/main/java/com/thisux/sdui/JsonParser.kt:11-70 | a decoded component has the serial name `"_type"` carries, its `type` is the string under `"type"`, and every string property is the string under its key |
| JsonParserProperties.DecodesFromDeclaredKeys | app/src/main/java/com/thisux/sdui/JsonParser.kt:16-91 | the converse: an object whose `"_type"` and declared keys hold a component's serial name and properties decodes to that component |
| JsonParserProperties.TransactionFromDeclaredKeys | app/src/main/java/com/thisux/sdui/JsonParser.kt:54-61 | an object whose four declared keys hold a transaction's properties decodes to that transaction |
| JsonParserProperties.DecodesFromMembers | app/src/main/java/com/thisux/sdui/JsonParser.kt:16-91 | an object with no repeated key that holds a component's discriminator and properties decodes to it, whatever else it holds |
| JsonParserProperties.TransactionFromMembers | app/src/main/java/com/thisux/sdui/JsonParser.kt:54-61 | the same for a transaction read as a concrete class |
| JsonParserProperties.TopLevelTransaction | app/src/main/java/com/thisux/sdui/JsonParser.kt:54-61 | a top-level `"transaction"` is read by the same serializer as a dashboard's transactions, with the same value or error |
| JsonParserProperties.DashboardTransactionsInOrder | app/src/main/java/com/thisux/sdui/JsonParser.kt:64-70 | a decoded dashboard has as many transactions as its array has elements, each the decode of the element at its position |
| JsonParserProperties.ReorderingIgnored | app/src/main/java/com/thisux/sdui/JsonParser.kt:87-91 | two orderings of the same members with no repeated key decode alike |
| JsonParserProperties.TransactionRoundTrip | app/src/main/java/com/thisux/sdui/JsonParser.kt:54-61 | encoding a transaction and decoding it gives the transaction back |
| JsonParserProperties.TransactionsRoundTrip | app/src/main/java/com/thisux/sdui/JsonParser.kt:64-70 | encoding a list of transactions and decoding it gives the list back, in order |
| JsonParserProperties.DecodeClassRebuilds | app/src/main/java/com/thisux/sdui/JsonParser.kt:16-70 | a class's serializer rebuilds any component of that class whose properties it reads back |
| JsonParserProperties.RegisteredDispatch | app/src/main/java/com/thisux/sdui/JsonParser.kt:76-85 | the serializer registered under a class's serial name is that class's own serializer |
| JsonParserProperties.DispatchOnTag | app/src/main/java/com/thisux/sdui/JsonParser.kt:76-91 | an object whose `"_type"` is a class's serial name is decoded by that class's serializer |
| JsonParserProperties.DecodedByClass | app/src/main/java/com/thisux/sdui/JsonParser.kt:76-91 | a decoded component came from the serializer of its own class, selected by `"_type"` |
| JsonParserProperties.EncodedDiscriminator | app/src/main/java/com/thisux/sdui/JsonParser.kt:90 | an encoded component carries its serial name under `"_type"` |
| JsonParserProperties.EncodedStringFields | app/src/main/java/com/thisux/sdui/JsonParser.kt:16-70 | an encoded component carries its string properties under their keys |
| JsonParserProperties.EncodedTransactions | app/src/main/java/com/thisux/sdui/JsonParser.kt:64-70 | an encoded dashboard carries its encoded transactions under `"transactions"` |
| JsonParserProperties.RoundTrip | app/src/main/java/com/thisux/sdui/JsonParser.kt:11-91 | encoding any component and decoding it gives an equal component, for every variant |
| JsonParserProperties.ParseRoundTrip | app/src/main/java/com/thisux/sdui/JsonParser.kt:93-100 | `parseJsonToComponent` gives back every encoded component |
| JsonParserProperties.ListRoundTrip | app/src/main/java/com/thisux/sdui/MainActivity.kt:224 | a list of encoded components decodes to the same list, in the same order |
| JsonParserProperties.EncodeWellFormed | app/src/main/java/com/thisux/sdui/JsonParser.kt:16-70 | the encoder writes no key twice, at any depth |
| JsonParserProperties.EncodeTransactionsWellFormed | app/src/main/java/com/thisux/sdui/JsonParser.kt:64-70 | the same for a list of transactions |
| SamplePayload.CardAndBannerDescribe | app/src/main/java/com/thisux/sdui/MainActivity.kt:87-102 | the card and the banner of the payload hold the discriminator and the properties of the expected components, with no repeated key |
| SamplePayload.ButtonAndProductDescribe | app/src/main/java/com/thisux/sdui/MainActivity.kt:103-116 | the same for the button and the first product |
| SamplePayload.ProductsDescribe | app/src/main/java/com/thisux/sdui/MainActivity.kt:117-132 | the same for the second and third products |
| SamplePayload.TransactionAndDashboardDescribe | app/src/main/java/com/thisux/sdui/MainActivity.kt:133-160 | the same for the transaction and the dashboard |
| SamplePayload.DashboardTransactionsDescribe | app/src/main/java/com/thisux/sdui/MainActivity.kt:144-158 | each of the dashboard's transactions holds the properties of the expected transaction, with no repeated key |
| SamplePayload.DashboardTransactionsDecode | app/src/main/java/com/thisux/sdui/MainActivity.kt:144-158 | each of the dashboard's transactions decodes to the expected transaction; its `"_type"` is ignored |
| SamplePayload.ChartFails | app/src/main/java/com/thisux/sdui/MainActivity.kt:161-167 | the chart element fails with the unknown discriminator `"chart"` |
| SamplePayload.ElementDecodes | app/src/main/java/com/thisux/sdui/MainActivity.kt:87-160 | each of the first eight elements decodes to the expected component at its position; the card's extra `backgroundColor` is ignored |
| SamplePayload.PrefixDecodes | app/src/main/java/com/thisux/sdui/MainActivity.kt:87-160 | the first eight elements decode to the eight expected components, in order, followed by the decode of any list after them |
| SamplePayload.PayloadFails | app/src/main/java/com/thisux/sdui/MainActivity.kt:85-224 | the payload as a whole fails with the unknown discriminator `"chart"`, whatever follows the chart |
| SamplePayload.WholePayloadFails | app/src/main/java/com/thisux/sdui/MainActivity.kt:85-224 | the payload as written, all eleven elements, fails as a whole with the unknown discriminator `"chart"` |
| SamplePayload.FirstEightDecode | app/src/main/java/com/thisux/sdui/MainActivity.kt:87-160 | the first eight elements alone decode to the eight expected components, in order |
| SamplePayload.TypePropertyDoesNotDispatch | app/src/main/java/com/thisux/sdui/JsonParser.kt:87-91 | a button whose `type` says `"banner"` decodes as a button: only `"_type"` chooses the class |

## Left out

- JSON text syntax is left out. `ParseJsonToComponent` takes the document the syntax layer produced, `None` standing for text that is not JSON. `decodeFromString` parsing, and `isLenient`, coercion or other configuration the source does not set, are not modelled.
- Exceptions, their messages and `e.printStackTrace()` are left out. A failure is a `DecodeError` value, whose kinds are the model's own names and not the library's exception texts.
- Numbers are `JNum(int)`. The core never decodes a number. Numbers appear in the payload in the chart's `data` and the profile's `stats`, and no registered class reads either.
- Repeated keys in one object are resolved by reading the first occurrence. The library's behaviour on them is not claimed. `LookupAppend` states the first-occurrence rule itself. The properties stated through `Lookup` (`DecodesFromDeclaredKeys`, `StringPropertiesCopied`, `DecodeComponent` and the like) describe that rule on an object with a repeated key. `StringFieldsOfEncoding` excludes such keys around the written ones. `ReorderingIgnored`, `DecodesFromMembers` and the sample lemmas require distinct keys.
- StringFields: when several properties of one object are missing or of the wrong kind, the error reported is that of the first in declaration order. This is the model's choice: generated deserializers read properties in the order the JSON yields them and check for missing ones afterwards, so the library may report another of the bad properties.
- A non-string, non-null `"_type"` fails as `WrongType("_type")`. This is a model name for the library's error.
- The position of `"_type"` within the object is not modelled: the model reads `"_type"` wherever it is written, and the library's streaming lookup of the discriminator is left out.
- The `ChartUI`, `ProfileUI` and `SettingsUI` classes that the demo screen renders are not defined or registered in `JsonParser.kt`. They are therefore not variants of the model. The chart element fails as an unknown discriminator, and the profile and settings elements are never reached.
- Rendering (the Compose screens of MainActivity.kt), logging and the `components != null` test are not part of this model.
- PrefixDecodes and PayloadFails are stated for any list following the prefix. `FirstEightDecode` and `WholePayloadFails` apply them to the first eight elements alone and to the payload as written.
