/** The field router of the community form: a field change replaces the
    whole form record with a new one in which either one nested record
    (underlying conditions or address) or one top-level property differs.
    The symptom branch is modelled as it is written: it rebuilds the
    `address` record from the `symptom` property. */
module FieldRouter {
  import opened FormValues

  const UNDERLYING_KEY := "underlyingConditions"
  const ADDRESS_KEY := "address"
  /** The property the symptom branch spreads from. */
  const SYMPTOM_KEY := "symptom"

  /** The three membership lists imported from the shared constants; their
      contents are not fixed by the form. */
  datatype MembershipLists = MembershipLists(
    underlying: seq<string>,
    address: seq<string>,
    symptoms: seq<string>)

  /** The branch of the router a field takes. */
  datatype Route = Underlying | Address | Symptoms | TopLevel

  function RouteOf(lists: MembershipLists, field: string): Route
  {
    if field in lists.underlying then Underlying
    else if field in lists.address then Address
    else if field in lists.symptoms then Symptoms
    else TopLevel
  }

  /** The top-level property a route writes. */
  function Target(route: Route, field: string): string
  {
    match route
    case Underlying => UNDERLYING_KEY
    case Address => ADDRESS_KEY
    case Symptoms => ADDRESS_KEY
    case TopLevel => field
  }

  /** `{ ...obj, [bucket]: { ...obj[source], [field]: value } }` */
  function NestedSet(obj: map<string, Value>, bucket: string, source: string, field: string, value: Value): map<string, Value>
  {
    obj[bucket := Record(Spread(Lookup(obj, source))[field := value])]
  }

  /** The record `handleFieldChange(field)(value)` stores. */
  function FieldChange(lists: MembershipLists, obj: map<string, Value>, field: string, value: Value): (r: map<string, Value>)
    ensures r.Keys == obj.Keys + {Target(RouteOf(lists, field), field)}
    ensures forall k :: k in obj && k != Target(RouteOf(lists, field), field) ==> r[k] == obj[k]
  {
    match RouteOf(lists, field)
    case Underlying => NestedSet(obj, UNDERLYING_KEY, UNDERLYING_KEY, field, value)
    case Address => NestedSet(obj, ADDRESS_KEY, ADDRESS_KEY, field, value)
    case Symptoms => NestedSet(obj, ADDRESS_KEY, SYMPTOM_KEY, field, value)
    case TopLevel => obj[field := value]
  }

  /** The lists are tried in the order underlying, address, symptoms; a
      field listed more than once takes the first list that holds it. */
  lemma RoutingPriority(lists: MembershipLists, field: string)
    ensures RouteOf(lists, field) == Underlying <==> field in lists.underlying
    ensures RouteOf(lists, field) == Address <==> field !in lists.underlying && field in lists.address
    ensures RouteOf(lists, field) == Symptoms <==>
      field !in lists.underlying && field !in lists.address && field in lists.symptoms
    ensures RouteOf(lists, field) == TopLevel <==>
      field !in lists.underlying && field !in lists.address && field !in lists.symptoms
  {
  }

  /** An underlying-condition field sets its entry in the underlying
      conditions record, keeps that record's other entries, and leaves every
      other top-level property alone. */
  lemma UnderlyingChange(lists: MembershipLists, obj: map<string, Value>, field: string, value: Value)
    requires field in lists.underlying
    ensures var r := FieldChange(lists, obj, field, value);
      && r.Keys == obj.Keys + {UNDERLYING_KEY}
      && r[UNDERLYING_KEY].Record?
      && r[UNDERLYING_KEY].fields.Keys == Spread(Lookup(obj, UNDERLYING_KEY)).Keys + {field}
      && r[UNDERLYING_KEY].fields[field] == value
      && (forall k :: k in Spread(Lookup(obj, UNDERLYING_KEY)) && k != field ==>
            r[UNDERLYING_KEY].fields[k] == Spread(Lookup(obj, UNDERLYING_KEY))[k])
      && (forall k :: k in obj && k != UNDERLYING_KEY ==> r[k] == obj[k])
  {
  }

  /** An address field that is not also an underlying-condition field sets
      its entry in the address record and keeps the record's other entries. */
  lemma AddressChange(lists: MembershipLists, obj: map<string, Value>, field: string, value: Value)
    requires field !in lists.underlying && field in lists.address
    ensures var r := FieldChange(lists, obj, field, value);
      && r.Keys == obj.Keys + {ADDRESS_KEY}
      && r[ADDRESS_KEY].Record?
      && r[ADDRESS_KEY].fields.Keys == Spread(Lookup(obj, ADDRESS_KEY)).Keys + {field}
      && r[ADDRESS_KEY].fields[field] == value
      && (forall k :: k in Spread(Lookup(obj, ADDRESS_KEY)) && k != field ==>
            r[ADDRESS_KEY].fields[k] == Spread(Lookup(obj, ADDRESS_KEY))[k])
      && (forall k :: k in obj && k != ADDRESS_KEY ==> r[k] == obj[k])
  {
  }

  /** A field listed only among the symptoms replaces the address record
      with the entries of `symptom` plus the new one: address entries that
      `symptom` does not hold are dropped, and every property other than
      `address` (a symptoms record among them) is left as it was. */
  lemma SymptomChange(lists: MembershipLists, obj: map<string, Value>, field: string, value: Value)
    requires field !in lists.underlying && field !in lists.address && field in lists.symptoms
    ensures var r := FieldChange(lists, obj, field, value);
      && r.Keys == obj.Keys + {ADDRESS_KEY}
      && r[ADDRESS_KEY] == Record(Spread(Lookup(obj, SYMPTOM_KEY))[field := value])
      && (forall k ::
            (k in Spread(Lookup(obj, ADDRESS_KEY)) && k != field && k !in Spread(Lookup(obj, SYMPTOM_KEY)))
            ==> k !in r[ADDRESS_KEY].fields)
      && (forall k :: k in obj && k != ADDRESS_KEY ==> r[k] == obj[k])
  {
  }

  /** A field in no list sets only the top-level property of that name. */
  lemma TopLevelChange(lists: MembershipLists, obj: map<string, Value>, field: string, value: Value)
    requires field !in lists.underlying && field !in lists.address && field !in lists.symptoms
    ensures var r := FieldChange(lists, obj, field, value);
      && r.Keys == obj.Keys + {field}
      && r[field] == value
      && (forall k :: k in obj && k != field ==> r[k] == obj[k])
  {
  }

  /** A concrete instance of the symptom branch: changing `fever` on a form
      whose address holds a city and whose symptoms record is empty loses
      the city and files `fever` under the address, while the symptoms
      record stays empty. */
  lemma SymptomChangeDropsAddress(city: Value, fever: Value)
    ensures var lists := MembershipLists([], ["city"], ["fever"]);
      var obj := map["address" := Record(map["city" := city]), "symptoms" := Record(map[])];
      var r := FieldChange(lists, obj, "fever", fever);
      && r["address"] == Record(map["fever" := fever])
      && "city" !in r["address"].fields
      && r["symptoms"] == Record(map[])
  {
  }

  /** Both nested buckets hold records. */
  predicate HasBuckets(obj: map<string, Value>)
  {
    UNDERLYING_KEY in obj && obj[UNDERLYING_KEY].Record? && ADDRESS_KEY in obj && obj[ADDRESS_KEY].Record?
  }

  /** A change keeps both nested buckets records, unless the field is itself
      named after a bucket and overwrites it at the top level. */
  lemma BucketsStayRecords(lists: MembershipLists, obj: map<string, Value>, field: string, value: Value)
    requires HasBuckets(obj)
    requires RouteOf(lists, field) != TopLevel || (field != UNDERLYING_KEY && field != ADDRESS_KEY)
    ensures HasBuckets(FieldChange(lists, obj, field, value))
  {
  }

  /** After the form record has been reset to `{}`, a nested field creates
      its bucket afresh with that one entry, since spreading `undefined`
      copies nothing. */
  lemma ChangeAfterReset(lists: MembershipLists, field: string, value: Value)
    requires RouteOf(lists, field) != TopLevel
    ensures var r := FieldChange(lists, map[], field, value);
      r == map[Target(RouteOf(lists, field), field) := Record(map[field := value])]
  {
  }
}
