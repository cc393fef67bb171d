/** The values a community form record holds, and the two JavaScript
    operations on them that the form relies on: reading a property (which
    yields `undefined` when the property is absent) and spreading a value
    into an object literal (`{ ...v }`). */
module FormValues {

  /** An optional value: `None` marks an absent one (a missing property,
      or a `null` report). */
  datatype Option<+T> = None | Some(value: T)

  /** A form value. `Record` is a plain object, keyed by property name;
      `Text` is a string; `Primitive` is any other non-object value
      (null, a boolean, a number), left opaque. */
  datatype Value =
    | Primitive(token: nat)
    | Text(s: string)
    | Record(fields: map<string, Value>)

  /** `obj[key]`: the value stored under `key`, or `undefined`. */
  function Lookup(obj: map<string, Value>, key: string): Option<Value>
  {
    if key in obj then Some(obj[key]) else None
  }

  function DigitChar(d: nat): (c: char)
    requires d < 10
    ensures '0' <= c <= '9'
  {
    "0123456789"[d]
  }

  /** The property name JavaScript gives to index `n` of a string: its
      decimal representation. */
  function DecimalString(n: nat): (s: string)
    ensures |s| >= 1
    ensures n < 10 <==> |s| == 1
    decreases n
  {
    if n < 10 then [DigitChar(n)] else DecimalString(n / 10) + [DigitChar(n % 10)]
  }

  lemma DigitCharInjective(a: nat, b: nat)
    requires a < 10 && b < 10
    requires DigitChar(a) == DigitChar(b)
    ensures a == b
  {
  }

  /** Different indices give different property names, so the entries a
      string spreads into never overwrite each other. */
  lemma {:induction false} DecimalStringInjective(a: nat, b: nat)
    ensures DecimalString(a) == DecimalString(b) ==> a == b
    decreases a
  {
    if DecimalString(a) == DecimalString(b) {
      if a < 10 {
        DigitCharInjective(a, b);
      } else {
        var sa, sb := DecimalString(a), DecimalString(b);
        assert sa[|sa| - 1] == DigitChar(a % 10) && sb[|sb| - 1] == DigitChar(b % 10);
        DigitCharInjective(a % 10, b % 10);
        assert sa[..|sa| - 1] == DecimalString(a / 10);
        assert sb[..|sb| - 1] == DecimalString(b / 10);
        DecimalStringInjective(a / 10, b / 10);
      }
    }
  }

  /** The own properties of the string `s` from index `from` on: index `i`
      holds the one-character string `s[i]`. */
  function CharEntries(s: string, from: nat): (r: map<string, Value>)
    requires from <= |s|
    ensures forall i :: from <= i < |s| ==> DecimalString(i) in r && r[DecimalString(i)] == Text([s[i]])
    decreases |s| - from
  {
    if from == |s| then map[]
    else
      var rest := CharEntries(s, from + 1);
      forall i | from + 1 <= i < |s| ensures DecimalString(i) != DecimalString(from) {
        DecimalStringInjective(i, from);
      }
      rest[DecimalString(from) := Text([s[from]])]
  }

  /** A string has no own properties besides its indices. */
  lemma {:induction false} CharEntriesKeys(s: string, from: nat, k: string)
    requires from <= |s|
    requires k in CharEntries(s, from)
    ensures exists i :: from <= i < |s| && k == DecimalString(i)
    decreases |s| - from
  {
    if k != DecimalString(from) {
      CharEntriesKeys(s, from + 1, k);
    }
  }

  /** The entries `{ ...v }` copies out of `v`: all of a record's entries,
      one entry per character of a string, and none for `undefined` or any
      other primitive. */
  function Spread(v: Option<Value>): (r: map<string, Value>)
    ensures v.None? ==> r == map[]
    ensures v.Some? && v.value.Primitive? ==> r == map[]
    ensures v.Some? && v.value.Record? ==> r == v.value.fields
    ensures v.Some? && v.value.Text? ==>
      (forall i :: 0 <= i < |v.value.s| ==> DecimalString(i) in r && r[DecimalString(i)] == Text([v.value.s[i]]))
  {
    match v
    case None => map[]
    case Some(Primitive(_)) => map[]
    case Some(Record(m)) => m
    case Some(Text(s)) => CharEntries(s, 0)
  }
}
