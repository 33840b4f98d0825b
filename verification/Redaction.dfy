/**
  The recursive redaction of scripts/_redact.py. `lower` stands for Python's
  `str.lower`; nothing here depends on what it does.
 */
module Redaction {
  type Lower = string -> string

  /** A dict key: its `str`, and a tag that tells keys printing the same apart. */
  datatype Key = Key(text: string, tag: nat)

  datatype Entry = Entry(key: Key, value: Value)

  /** A Python value; `Other` is any object that is no string, dict, list or tuple. */
  datatype Value =
    | Text(text: string)
    | Other(id: nat)
    | Dict(entries: seq<Entry>)
    | List(items: seq<Value>)
    | Tuple(items: seq<Value>)

  const REDACTED_KEYS: map<string, string> := map[
    "address" := "DEVICE_ADDRESS",
    "apikey" := "REDACTED",
    "deviceaddress" := "DEVICE_ADDRESS",
    "deviceid" := "DEVICE_ID",
    "identifier" := "DEVICE_IDENTIFIER",
    "name" := "DEVICE_NAME",
    "noisepsk" := "REDACTED",
    "packserial" := "PACK_SERIAL",
    "password" := "REDACTED",
    "productkey" := "PRODUCT_KEY",
    "secret" := "REDACTED",
    "serial" := "PACK_SERIAL",
    "serialnumber" := "PACK_SERIAL",
    "sn" := "PACK_SERIAL",
    "token" := "REDACTED"]

  function Without(text: string, c: char): string {
    if text == "" then "" else (if text[0] == c then "" else [text[0]]) + Without(text[1..], c)
  }

  function Stripped(text: string): string {
    Without(Without(text, '_'), '-')
  }

  /** `_normal_key`. */
  function NormalKey(lower: Lower, key: Key): string {
    lower(Stripped(key.text))
  }

  predicate Sensitive(lower: Lower, key: Key) {
    NormalKey(lower, key) in REDACTED_KEYS
  }

  /** `redact_value`; tuples come back as lists. */
  function Redact(lower: Lower, v: Value): Value {
    match v
    case Dict(entries) =>
      Dict(seq(|entries|, i requires 0 <= i < |entries| => RedactEntry(lower, entries[i])))
    case List(items) => List(seq(|items|, i requires 0 <= i < |items| => Redact(lower, items[i])))
    case Tuple(items) => List(seq(|items|, i requires 0 <= i < |items| => Redact(lower, items[i])))
    case _ => v
  }

  function RedactEntry(lower: Lower, e: Entry): Entry {
    Entry(e.key,
          if Sensitive(lower, e.key) then Text(REDACTED_KEYS[NormalKey(lower, e.key)]) else Redact(lower, e.value))
  }

  // ---- What can be seen of a value --------------------------------------

  datatype Sight =
    | Leaf(v: Value)
    | Keys(keys: seq<Key>)
    | Length(n: nat)
    | Nothing
    | Hidden

  predicate IsArray(v: Value) {
    v.List? || v.Tuple?
  }

  /** What stands at a path of positions, hidden from the first sensitive key on. */
  function At(lower: Lower, v: Value, path: seq<nat>): Sight
    decreases path
  {
    if path == [] then
      match v
      case Dict(entries) => Keys(seq(|entries|, i requires 0 <= i < |entries| => entries[i].key))
      case List(items) => Length(|items|)
      case Tuple(items) => Length(|items|)
      case _ => Leaf(v)
    else if v.Dict? && path[0] < |v.entries| then
      if Sensitive(lower, v.entries[path[0]].key) then Hidden else At(lower, v.entries[path[0]].value, path[1..])
    else if IsArray(v) && path[0] < |v.items| then At(lower, v.items[path[0]], path[1..])
    else Nothing
  }

  /** Every sensitive key, at any depth outside hidden values, holds its placeholder. */
  predicate Masked(lower: Lower, v: Value) {
    match v
    case Dict(entries) =>
      forall i | 0 <= i < |entries| ::
        if Sensitive(lower, entries[i].key)
        then entries[i].value == Text(REDACTED_KEYS[NormalKey(lower, entries[i].key)])
        else Masked(lower, entries[i].value)
    case List(items) => forall i | 0 <= i < |items| :: Masked(lower, items[i])
    case Tuple(items) => forall i | 0 <= i < |items| :: Masked(lower, items[i])
    case _ => true
  }

  lemma {:induction false} RedactMasks(lower: Lower, v: Value)
    ensures Masked(lower, Redact(lower, v))
  {
    if v.Dict? {
      forall i | 0 <= i < |v.entries| ensures Masked(lower, Redact(lower, v.entries[i].value)) {
        RedactMasks(lower, v.entries[i].value);
      }
    } else if IsArray(v) {
      forall i | 0 <= i < |v.items| ensures Masked(lower, Redact(lower, v.items[i])) {
        RedactMasks(lower, v.items[i]);
      }
    }
  }

  /** Everything that is not beneath a sensitive key is kept, at every depth. */
  lemma {:induction false} RedactKeepsSights(lower: Lower, v: Value, path: seq<nat>)
    ensures At(lower, Redact(lower, v), path) == At(lower, v, path)
  {
    if path != [] {
      if v.Dict? && path[0] < |v.entries| {
        RedactKeepsSights(lower, v.entries[path[0]].value, path[1..]);
      } else if IsArray(v) && path[0] < |v.items| {
        RedactKeepsSights(lower, v.items[path[0]], path[1..]);
      }
    }
  }

  /** Redacting twice is redacting once. */
  lemma {:induction false} RedactIdempotent(lower: Lower, v: Value)
    ensures Redact(lower, Redact(lower, v)) == Redact(lower, v)
  {
    if v.Dict? {
      forall i | 0 <= i < |v.entries|
        ensures RedactEntry(lower, RedactEntry(lower, v.entries[i])) == RedactEntry(lower, v.entries[i])
      {
        RedactIdempotent(lower, v.entries[i].value);
      }
    } else if IsArray(v) {
      forall i | 0 <= i < |v.items| ensures Redact(lower, Redact(lower, v.items[i])) == Redact(lower, v.items[i]) {
        RedactIdempotent(lower, v.items[i]);
      }
    }
  }

  lemma EntriesDiffer(lower: Lower, v: seq<Entry>, w: seq<Entry>) returns (i: nat)
    requires At(lower, Dict(v), []) == At(lower, Dict(w), []) && Redact(lower, Dict(v)) != Redact(lower, Dict(w))
    ensures i < |v| == |w| && v[i].key == w[i].key && !Sensitive(lower, v[i].key)
    ensures Redact(lower, v[i].value) != Redact(lower, w[i].value)
  {
    var keys, others := At(lower, Dict(v), []).keys, At(lower, Dict(w), []).keys;
    assert |keys| == |v| && |others| == |w|;
    i :| 0 <= i < |v| && RedactEntry(lower, v[i]) != RedactEntry(lower, w[i]);
    assert keys[i] == others[i];
  }

  /** Values that redact differently differ somewhere in plain sight. */
  lemma {:induction false} DifferenceInSight(lower: Lower, v: Value, w: Value) returns (path: seq<nat>)
    requires Redact(lower, v) != Redact(lower, w)
    ensures At(lower, v, path) != At(lower, w, path)
    decreases v
  {
    if At(lower, v, []) != At(lower, w, []) {
      path := [];
    } else if v.Dict? {
      var i := EntriesDiffer(lower, v.entries, w.entries);
      var rest := DifferenceInSight(lower, v.entries[i].value, w.entries[i].value);
      path := [i] + rest;
    } else {
      assert |v.items| == |w.items|;
      var i :| 0 <= i < |v.items| && Redact(lower, v.items[i]) != Redact(lower, w.items[i]);
      var rest := DifferenceInSight(lower, v.items[i], w.items[i]);
      path := [i] + rest;
    }
  }

  /**
    Two values redact to the same result exactly when they look the same
    everywhere but beneath sensitive keys: the result tells nothing more.
   */
  lemma RedactNonInterfering(lower: Lower, v: Value, w: Value)
    ensures Redact(lower, v) == Redact(lower, w) <==> forall path :: At(lower, v, path) == At(lower, w, path)
  {
    if Redact(lower, v) == Redact(lower, w) {
      forall path ensures At(lower, v, path) == At(lower, w, path) {
        RedactKeepsSights(lower, v, path);
        RedactKeepsSights(lower, w, path);
      }
    } else {
      var path := DifferenceInSight(lower, v, w);
    }
  }

  lemma {:induction false} WithoutConcat(a: string, b: string, c: char)
    ensures Without(a + b, c) == Without(a, c) + Without(b, c)
  {
    if a == "" {
      assert a + b == b;
    } else {
      assert (a + b)[1..] == a[1..] + b;
      WithoutConcat(a[1..], b, c);
    }
  }

  lemma StrippedConcat(a: string, b: string)
    ensures Stripped(a + b) == Stripped(a) + Stripped(b)
  {
    WithoutConcat(a, b, '_');
    WithoutConcat(Without(a, '_'), Without(b, '_'), '-');
  }

  lemma WithoutOne(x: char, c: char)
    ensures Without([x], c) == if x == c then "" else [x]
  {
    assert [x][1..] == "";
  }

  lemma SeparatorStripped(a: string, b: string, separator: char)
    requires separator == '_' || separator == '-'
    ensures Stripped(a + [separator] + b) == Stripped(a + b)
  {
    StrippedConcat(a + [separator], b);
    StrippedConcat(a, [separator]);
    StrippedConcat(a, b);
    WithoutOne(separator, '_');
    WithoutOne(separator, '-');
    assert Stripped([separator]) == "";
  }

  /** `_` and `-` anywhere in a key make no difference. */
  lemma SeparatorsIgnored(lower: Lower, a: string, b: string, tag: nat, separator: char)
    requires separator == '_' || separator == '-'
    ensures Sensitive(lower, Key(a + [separator] + b, tag)) <==> Sensitive(lower, Key(a + b, tag))
  {
    SeparatorStripped(a, b, separator);
  }

  /** A key without separators is left as it is. */
  lemma {:induction false} StrippedKeeps(text: string)
    requires '_' !in text && '-' !in text
    ensures Stripped(text) == text
  {
    WithoutKeeps(text, '_');
    WithoutKeeps(text, '-');
  }

  lemma {:induction false} WithoutKeeps(text: string, c: char)
    requires c !in text
    ensures Without(text, c) == text
  {
    if text != "" {
      WithoutKeeps(text[1..], c);
    }
  }

  /** The placeholder that stands for a value, by what the normalised key names. */
  function Placeholder(normal: string): string {
    if normal in {"address", "deviceaddress"} then "DEVICE_ADDRESS"
    else if normal == "deviceid" then "DEVICE_ID"
    else if normal == "identifier" then "DEVICE_IDENTIFIER"
    else if normal == "name" then "DEVICE_NAME"
    else if normal == "productkey" then "PRODUCT_KEY"
    else if normal in {"packserial", "serial", "serialnumber", "sn"} then "PACK_SERIAL"
    else "REDACTED"
  }

  const SENSITIVE: set<string> := {
    "address", "apikey", "deviceaddress", "deviceid", "identifier", "name", "noisepsk", "packserial",
    "password", "productkey", "secret", "serial", "serialnumber", "sn", "token"
  }

  /**
    A key is sensitive exactly when, its separators removed and then lowered, it is one of
    fifteen: so its case makes no difference, and the placeholder names the kind.
   */
  lemma SensitiveIff(lower: Lower, key: Key)
    ensures Sensitive(lower, key) <==> lower(Stripped(key.text)) in SENSITIVE
    ensures Sensitive(lower, key) ==>
              RedactEntry(lower, Entry(key, Other(0))).value == Text(Placeholder(lower(Stripped(key.text))))
  {
  }

  /** Keys that differ in case or separators only are treated alike. */
  lemma CaseIgnored(lower: Lower, a: Key, b: Key)
    requires lower(Stripped(a.text)) == lower(Stripped(b.text))
    ensures Sensitive(lower, a) <==> Sensitive(lower, b)
  {
    SensitiveIff(lower, a);
    SensitiveIff(lower, b);
  }

  /** Dicts and lists all the way down: what the JSON encoder expects. */
  predicate WithoutTuples(v: Value) {
    match v
    case Dict(entries) => forall i | 0 <= i < |entries| :: WithoutTuples(entries[i].value)
    case List(items) => forall i | 0 <= i < |items| :: WithoutTuples(items[i])
    case Tuple(_) => false
    case _ => true
  }

  /** Tuples come back as lists, at every depth. */
  lemma {:induction false} RedactListsTuples(lower: Lower, v: Value)
    ensures WithoutTuples(Redact(lower, v))
  {
    if v.Dict? {
      forall i | 0 <= i < |v.entries| ensures WithoutTuples(Redact(lower, v.entries[i].value)) {
        RedactListsTuples(lower, v.entries[i].value);
      }
    } else if IsArray(v) {
      forall i | 0 <= i < |v.items| ensures WithoutTuples(Redact(lower, v.items[i])) {
        RedactListsTuples(lower, v.items[i]);
      }
    }
  }
}
