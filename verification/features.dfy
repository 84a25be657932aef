/** The seven measurements a request carries, the order in which a handler
    reads them, the field names each handler reads them under, and the
    field-by-field extraction that stops at the first field it cannot read. */
module Features {
  import opened Wrappers

  /** One soil or climate measurement. */
  datatype Feature = Nitrogen | Phosphorus | Potassium | Temperature | Humidity | Ph | Rainfall

  /** The order in which both handlers read the fields and in which the
      values are laid out in the vector handed to the scalers. */
  const FeatureOrder: seq<Feature> := [Nitrogen, Phosphorus, Potassium, Temperature, Humidity, Ph, Rainfall]

  /** The number of measurements the scalers and the classifier were fitted on. */
  const FeatureCount: nat := |FeatureOrder|

  /** An ordered vector of measurements, one per entry of `FeatureOrder`. */
  type FeatureVector = v: seq<real> | |v| == FeatureCount witness [0.0, 0.0, 0.0, 0.0, 0.0, 0.0, 0.0]

  /** Field names of the HTML form, case-sensitive, with the form's own
      spelling "Phosporus": a capital letter followed by lower-case letters. */
  function FormKey(f: Feature): (k: string)
    ensures |k| > 0 && 'A' <= k[0] <= 'Z'
    ensures forall i :: 1 <= i < |k| ==> 'a' <= k[i] <= 'z'
  {
    match f
    case Nitrogen => "Nitrogen"
    case Phosphorus => "Phosporus"
    case Potassium => "Potassium"
    case Temperature => "Temperature"
    case Humidity => "Humidity"
    case Ph => "Ph"
    case Rainfall => "Rainfall"
  }

  /** Keys of the JSON request body: lower case, correctly spelled. */
  function JsonKey(f: Feature): (k: string)
    ensures |k| > 0
    ensures forall i :: 0 <= i < |k| ==> 'a' <= k[i] <= 'z'
  {
    match f
    case Nitrogen => "nitrogen"
    case Phosphorus => "phosphorus"
    case Potassium => "potassium"
    case Temperature => "temperature"
    case Humidity => "humidity"
    case Ph => "ph"
    case Rainfall => "rainfall"
  }

  /** The form field names and the JSON keys, listed in reading order. */
  const FormFieldNames: seq<string> := ["Nitrogen", "Phosporus", "Potassium", "Temperature", "Humidity", "Ph", "Rainfall"]
  const JsonKeyNames: seq<string> := ["nitrogen", "phosphorus", "potassium", "temperature", "humidity", "ph", "rainfall"]

  /** Position i of each list is the name of the i-th feature in reading order. */
  lemma KeyListsInOrder()
    ensures |FormFieldNames| == |JsonKeyNames| == FeatureCount
    ensures forall i :: 0 <= i < FeatureCount ==> FormFieldNames[i] == FormKey(FeatureOrder[i])
    ensures forall i :: 0 <= i < FeatureCount ==> JsonKeyNames[i] == JsonKey(FeatureOrder[i])
  {
  }

  /** Why a field could not be read: the key is absent (Python's `KeyError`),
      or `float()` rejected the value found under it (`ValueError` or
      `TypeError`, whose text quotes that value or names its type). */
  datatype FieldError<V> = MissingField(key: string) | NotANumber(key: string, value: V)

  /** The field named `key` is present and `toFloat` accepts its value. */
  predicate Readable<V>(fields: map<string, V>, key: string, toFloat: V -> Option<real>) {
    key in fields && toFloat(fields[key]).Some?
  }

  /** The error reading the field named `key` raises, assuming it is not
      readable: a missing key, or the value the conversion rejected. */
  function ErrorFor<V>(fields: map<string, V>, key: string): (e: FieldError<V>)
    ensures e.key == key
    ensures e.MissingField? <==> key !in fields
    ensures e.NotANumber? ==> e.value == fields[key]
  {
    if key in fields then NotANumber(key, fields[key]) else MissingField(key)
  }

  /** Reads the fields named `keyOf(f)` for every `f` in `fs`, in that order,
      converting each with `toFloat`, and stops at the first field that is
      missing or not a number. */
  function ExtractFrom<V>(fields: map<string, V>, keyOf: Feature -> string, toFloat: V -> Option<real>,
                          fs: seq<Feature>): (r: Result<seq<real>, FieldError<V>>)
    ensures r.Success? <==> forall i :: 0 <= i < |fs| ==> Readable(fields, keyOf(fs[i]), toFloat)
    ensures r.Success? ==> |r.value| == |fs|
    ensures r.Success? ==> forall i :: 0 <= i < |fs| ==>
              keyOf(fs[i]) in fields && toFloat(fields[keyOf(fs[i])]) == Some(r.value[i])
    ensures r.Failure? ==> exists i :: 0 <= i < |fs| && FirstUnreadable(fields, keyOf, toFloat, fs, i)
                                    && r.error == ErrorFor(fields, keyOf(fs[i]))
    decreases |fs|
  {
    if |fs| == 0 then Success([])
    else
      var key := keyOf(fs[0]);
      if key !in fields then Failure(MissingField(key))
      else match toFloat(fields[key])
        case None => Failure(NotANumber(key, fields[key]))
        case Some(x) =>
          match ExtractFrom(fields, keyOf, toFloat, fs[1..])
          case Failure(e) =>
            ghost var i :| 0 <= i < |fs| - 1 && FirstUnreadable(fields, keyOf, toFloat, fs[1..], i)
                           && e == ErrorFor(fields, keyOf(fs[1..][i]));
            assert FirstUnreadable(fields, keyOf, toFloat, fs, i + 1);
            Failure(e)
          case Success(xs) => Success([x] + xs)
  }

  /** Position `i` holds the first feature whose field cannot be read. */
  predicate FirstUnreadable<V>(fields: map<string, V>, keyOf: Feature -> string, toFloat: V -> Option<real>,
                               fs: seq<Feature>, i: int)
    requires 0 <= i < |fs|
  {
    && !Readable(fields, keyOf(fs[i]), toFloat)
    && forall j :: 0 <= j < i ==> Readable(fields, keyOf(fs[j]), toFloat)
  }

  /** At most one position holds the first unreadable field. */
  lemma FirstUnreadableUnique<V>(fields: map<string, V>, keyOf: Feature -> string, toFloat: V -> Option<real>,
                                 fs: seq<Feature>, i: int, j: int)
    requires 0 <= i < |fs| && 0 <= j < |fs|
    requires FirstUnreadable(fields, keyOf, toFloat, fs, i)
    requires FirstUnreadable(fields, keyOf, toFloat, fs, j)
    ensures i == j
  {
  }

  /** Reads all seven measurements in `FeatureOrder`. */
  function Extract<V>(fields: map<string, V>, keyOf: Feature -> string, toFloat: V -> Option<real>)
    : (r: Result<FeatureVector, FieldError<V>>)
    ensures r.Success? <==> forall f :: f in FeatureOrder ==> Readable(fields, keyOf(f), toFloat)
    ensures r.Success? ==> forall i :: 0 <= i < FeatureCount ==>
              keyOf(FeatureOrder[i]) in fields && toFloat(fields[keyOf(FeatureOrder[i])]) == Some(r.value[i])
    ensures r.Failure? ==> exists i :: 0 <= i < FeatureCount && FirstUnreadable(fields, keyOf, toFloat, FeatureOrder, i)
                                    && r.error == ErrorFor(fields, keyOf(FeatureOrder[i]))
  {
    match ExtractFrom(fields, keyOf, toFloat, FeatureOrder)
    case Success(v) => Success(v)
    case Failure(e) => Failure(e)
  }

  /** No two features share a field name in either handler, so every field
      is read exactly once. */
  lemma KeysDistinct(f: Feature, g: Feature)
    requires f != g
    ensures FormKey(f) != FormKey(g)
    ensures JsonKey(f) != JsonKey(g)
  {
  }

  /** ASCII lower-casing of one character. */
  function LowerChar(c: char): char {
    if 'A' <= c <= 'Z' then (c as int - 'A' as int + 'a' as int) as char else c
  }

  /** ASCII lower-casing of a string. */
  function Lower(s: string): (r: string)
    ensures |r| == |s|
    ensures forall i :: 0 <= i < |s| ==> r[i] == LowerChar(s[i])
  {
    seq(|s|, i requires 0 <= i < |s| => LowerChar(s[i]))
  }

  /** The JSON keys are the form's field names in lower case, except for
      phosphorus, whose form field is spelled "Phosporus". */
  lemma JsonKeyIsLowerFormKey(f: Feature)
    ensures f != Phosphorus <==> JsonKey(f) == Lower(FormKey(f))
  {
    match f
    case Nitrogen => assert Lower("Nitrogen") == "nitrogen";
    case Phosphorus => assert |Lower("Phosporus")| != |"phosphorus"|;
    case Potassium => assert Lower("Potassium") == "potassium";
    case Temperature => assert Lower("Temperature") == "temperature";
    case Humidity => assert Lower("Humidity") == "humidity";
    case Ph => assert Lower("Ph") == "ph";
    case Rainfall => assert Lower("Rainfall") == "rainfall";
  }
}
