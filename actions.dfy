/** The ad platform's loosely typed action collections (lists of
    action-type/value pairs) and the first-match search over them. */
module Actions {
  import opened Wrappers

  /** One `{action_type, value}` entry; the value is the number its text
      parses to, or None when it is missing or unparsable. */
  datatype ActionEntry = ActionEntry(actionType: string, value: Option<real>)

  /** Alias lists: each names the action types that count as one canonical metric. */
  const InstallTypes: seq<string> := ["omni_app_install", "mobile_app_install", "app_install"]
  const PurchaseTypes: seq<string> := ["purchase", "omni_purchase"]
  const LinkClickTypes: seq<string> := ["link_click", "outbound_click"]
  const AddToCartTypes: seq<string> := ["add_to_cart", "omni_add_to_cart"]
  const CheckoutTypes: seq<string> := ["initiate_checkout", "omni_initiated_checkout"]

  /** The entry at `i` is the first one whose type is in `types`. */
  predicate FirstMatchAt(entries: seq<ActionEntry>, types: seq<string>, i: nat) {
    && i < |entries|
    && entries[i].actionType in types
    && forall j :: 0 <= j < i ==> entries[j].actionType !in types
  }

  /** The position of the first entry whose type is in `types`, if any. */
  function FirstMatch(entries: seq<ActionEntry>, types: seq<string>): (r: Option<nat>)
    ensures r.Some? ==> FirstMatchAt(entries, types, r.value)
    ensures r.None? ==> forall j :: 0 <= j < |entries| ==> entries[j].actionType !in types
  {
    if entries == [] then None
    else if entries[0].actionType in types then Some(0)
    else match FirstMatch(entries[1..], types)
      case None => None
      case Some(i) => Some(i + 1)
  }

  /** `arr?.find(x => types.includes(x.action_type))`: the first entry of the
      collection, in collection order, whose type is any of the aliases,
      whatever its value; nothing when the collection is absent or has no
      such entry. */
  function FindAction(arr: Option<seq<ActionEntry>>, types: seq<string>): (r: Option<ActionEntry>)
    ensures r.None? <==> arr.None? || forall j :: 0 <= j < |arr.value| ==> arr.value[j].actionType !in types
    ensures r.Some? ==> exists i: nat :: FirstMatchAt(arr.value, types, i) && arr.value[i] == r.value
  {
    match arr
    case None => None
    case Some(entries) =>
      match FirstMatch(entries, types)
      case None => None
      case Some(i) => Some(entries[i])
  }

  /** There is only one first match. */
  lemma FirstMatchUnique(entries: seq<ActionEntry>, types: seq<string>, i: nat, j: nat)
    requires FirstMatchAt(entries, types, i) && FirstMatchAt(entries, types, j)
    ensures i == j
  {
  }

  /** The entry found is the one at the first matching position. */
  lemma FindActionAt(entries: seq<ActionEntry>, types: seq<string>, i: nat)
    requires FirstMatchAt(entries, types, i)
    ensures FindAction(Some(entries), types) == Some(entries[i])
  {
    var r := FirstMatch(entries, types);
    if r.Some? {
      FirstMatchUnique(entries, types, i, r.value);
    }
  }

  /** The entry found in a concatenation comes from the first part when it has one. */
  lemma FindActionAppend(a: seq<ActionEntry>, b: seq<ActionEntry>, types: seq<string>)
    ensures FindAction(Some(a + b), types)
         == if FindAction(Some(a), types).Some? then FindAction(Some(a), types) else FindAction(Some(b), types)
  {
    var ra, rb := FirstMatch(a, types), FirstMatch(b, types);
    if ra.Some? {
      var i := ra.value;
      assert (a + b)[i] == a[i];
      assert forall k :: 0 <= k < i ==> (a + b)[k] == a[k];
      FindActionAt(a + b, types, i);
    } else if rb.Some? {
      var j := rb.value;
      assert (a + b)[|a| + j] == b[j];
      assert forall k :: 0 <= k < |a| ==> (a + b)[k] == a[k];
      assert forall k :: |a| <= k < |a| + j ==> (a + b)[k] == b[k - |a|];
      FindActionAt(a + b, types, |a| + j);
    } else {
      assert forall k :: 0 <= k < |a + b| ==> (a + b)[k] == if k < |a| then a[k] else b[k - |a|];
    }
  }

  /** The value of an entry that may be missing: `entry?.value`. */
  function ValueOf(entry: Option<ActionEntry>): Option<real> {
    match entry
    case None => None
    case Some(e) => e.value
  }

  /** `arr?.[0]?.value`: the value of the first entry, whatever its type. */
  function FirstValue(arr: Option<seq<ActionEntry>>): Option<real> {
    match arr
    case Some(entries) => if entries == [] then None else entries[0].value
    case None => None
  }
}
