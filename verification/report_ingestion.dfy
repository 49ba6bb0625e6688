/**
 * The specification of the two ingestion paths: how a batch of incoming
 * (attribute identifier, value) pairs changes the attribute registry and
 * which listener callbacks it submits.
 *
 * Both paths apply updates left to right. The report path stops at the
 * first identifier the registry does not hold; the status path requires
 * every identifier to be held and ignores the status codes.
 */
module ReportIngestion {
  import opened ZclTypes
  import opened ListenerRegistry

  /** One value update taken from a report or a status record; the value may be null (None). */
  datatype Update = Update(id: int, value: Option<Value>)

  /** The updates carried by a batch of attribute reports, in order. */
  function ReportUpdates(reports: seq<AttributeReport>): seq<Update>
  {
    seq(|reports|, i requires 0 <= i < |reports| =>
      Update(reports[i].attributeIdentifier, reports[i].attributeValue))
  }

  /** The updates carried by a batch of read status records, in order; the status codes play no part. */
  function StatusUpdates(records: seq<ReadAttributeStatusRecord>): seq<Update>
  {
    seq(|records|, i requires 0 <= i < |records| =>
      Update(records[i].attributeIdentifier, records[i].attributeValue))
  }

  /**
   * `updateValue` on the attribute registered under `u.id`, storing the
   * value as it is (a null value included); a map without that key is left
   * alone.
   */
  function SetValue(m: map<int, Attribute>, u: Update): map<int, Attribute>
  {
    if u.id in m then m[u.id := m[u.id].(value := u.value)] else m
  }

  /** Every holder is registered under its own identifier. */
  ghost predicate KeyedById(m: map<int, Attribute>)
  {
    forall id :: id in m ==> m[id].id == id
  }

  /**
   * The registry after applying the first `n` updates of `us`, left to
   * right. No key is added or removed.
   */
  function Applied(m: map<int, Attribute>, us: seq<Update>, n: nat): (r: map<int, Attribute>)
    requires n <= |us|
    ensures r.Keys == m.Keys
  {
    if n == 0 then m else SetValue(Applied(m, us, n - 1), us[n - 1])
  }

  /** Ingestion changes only values: every holder keeps its identifier, data type and name. */
  lemma {:induction false} OnlyValuesChange(m: map<int, Attribute>, us: seq<Update>, n: nat, id: int)
    requires n <= |us| && id in m
    ensures Applied(m, us, n)[id] == m[id].(value := Applied(m, us, n)[id].value)
  {
    if n > 0 {
      OnlyValuesChange(m, us, n - 1, id);
    }
  }

  /** Ingestion keeps every holder registered under its own identifier. */
  lemma {:induction false} AppliedKeepsKeyedById(m: map<int, Attribute>, us: seq<Update>, n: nat)
    requires n <= |us| && KeyedById(m)
    ensures KeyedById(Applied(m, us, n))
  {
    forall id | id in Applied(m, us, n)
      ensures Applied(m, us, n)[id].id == id
    {
      OnlyValuesChange(m, us, n, id);
    }
  }

  /**
   * Holders registered under their own identifiers are pairwise distinct,
   * so a set of keys yields as many holders as it has keys.
   */
  lemma {:induction false} HolderCount(m: map<int, Attribute>, keys: set<int>)
    requires KeyedById(m) && keys <= m.Keys
    ensures |set id | id in keys :: m[id]| == |keys|
    decreases keys
  {
    if keys != {} {
      var x := SomeKey(keys);
      var rest := keys - {x};
      HolderCount(m, rest);
      var holders := set id | id in keys :: m[id];
      var others := set id | id in rest :: m[id];
      assert holders == others + {m[x]};
      assert m[x] !in others;
    }
  }

  /** Some element of a non-empty set of identifiers. */
  lemma SomeKey(keys: set<int>) returns (x: int)
    requires keys != {}
    ensures x in keys
  {
    x := if exists k :: k in keys then (var k :| k in keys; k) else 0;
  }

  /**
   * The callbacks for the first `n` updates of `us`: for each update in
   * turn, one per listener in listener order.
   */
  function Notifications(ls: seq<Listener>, us: seq<Update>, n: nat): (r: seq<Notification>)
    requires n <= |us|
    ensures |r| == n * |ls|
  {
    if n == 0 then []
    else
      var prefix := Notifications(ls, us, n - 1);
      assert |prefix| + |ls| == n * |ls| by {
        NextBlock(n - 1, |ls|);
      }
      prefix + NotificationsFor(ls, us[n - 1].id)
  }

  /**
   * The number of leading updates whose identifier is in `known`: every
   * update before it is known, and the one at it (if any) is not.
   */
  function KnownPrefix(known: set<int>, us: seq<Update>): (k: nat)
    ensures k <= |us|
    ensures forall j :: 0 <= j < k ==> us[j].id in known
    ensures k < |us| ==> us[k].id !in known
    decreases |us|
  {
    if us == [] || us[0].id !in known then 0
    else
      var rest := KnownPrefix(known, us[1..]);
      assert forall j :: 1 <= j < rest + 1 ==> us[j] == us[1..][j - 1];
      rest + 1
  }

  /** An unknown identifier met while scanning the known prefix is where the prefix ends. */
  lemma StopsAtUnknown(known: set<int>, us: seq<Update>, i: nat)
    requires i <= KnownPrefix(known, us) && i < |us| && us[i].id !in known
    ensures i == KnownPrefix(known, us)
  {
  }

  /** When every identifier is known, the whole batch is applied. */
  lemma AllKnownAppliesAll(known: set<int>, us: seq<Update>)
    requires forall j :: 0 <= j < |us| ==> us[j].id in known
    ensures KnownPrefix(known, us) == |us|
  {
  }

  /** The first `n` updates decide the result; what follows them plays no part. */
  lemma {:induction false} PrefixDecides(m: map<int, Attribute>, ls: seq<Listener>,
                                         us: seq<Update>, tail: seq<Update>, n: nat)
    requires n <= |us|
    ensures Applied(m, us + tail, n) == Applied(m, us, n)
    ensures Notifications(ls, us + tail, n) == Notifications(ls, us, n)
  {
    if n > 0 {
      PrefixDecides(m, ls, us, tail, n - 1);
      assert (us + tail)[n - 1] == us[n - 1];
    }
  }

  /**
   * Everything from the first unknown identifier on is ignored: appending
   * further updates after it changes neither how many are applied, nor the
   * resulting registry, nor the callbacks.
   */
  lemma UnknownIdentifierEndsBatch(m: map<int, Attribute>, ls: seq<Listener>,
                                   us: seq<Update>, tail: seq<Update>)
    requires KnownPrefix(m.Keys, us) < |us|
    ensures KnownPrefix(m.Keys, us + tail) == KnownPrefix(m.Keys, us)
    ensures Applied(m, us + tail, KnownPrefix(m.Keys, us)) == Applied(m, us, KnownPrefix(m.Keys, us))
    ensures Notifications(ls, us + tail, KnownPrefix(m.Keys, us))
            == Notifications(ls, us, KnownPrefix(m.Keys, us))
  {
    var k := KnownPrefix(m.Keys, us);
    assert (us + tail)[k] == us[k];
    PrefixDecides(m, ls, us, tail, k);
  }

  /**
   * A batch [known, unknown, known]: the first report is applied and the
   * third is not, although its identifier is registered.
   */
  lemma TruncatedBatch(first: Attribute, third: Attribute, v1: Value, v2: Value, v3: Value)
    ensures var m := map[1 := first, 3 := third];
      var us := [Update(1, Some(v1)), Update(2, Some(v2)), Update(3, Some(v3))];
      && KnownPrefix(m.Keys, us) == 1
      && Applied(m, us, 1)[1].value == Some(v1)
      && Applied(m, us, 1)[3] == third
  {
    var m := map[1 := first, 3 := third];
    var us := [Update(1, Some(v1)), Update(2, Some(v2)), Update(3, Some(v3))];
    assert us[0].id in m.Keys && us[1].id !in m.Keys;
    StopsAtUnknown(m.Keys, us, 1);
  }

  /**
   * The last update of an attribute decides its value: if `us[j]` is the
   * last of the first `n` updates to name a registered identifier, the
   * attribute ends with its value.
   */
  lemma {:induction false} LastUpdateWins(m: map<int, Attribute>, us: seq<Update>, n: nat, j: nat)
    requires j < n <= |us| && us[j].id in m
    requires forall k :: j < k < n ==> us[k].id != us[j].id
    ensures Applied(m, us, n)[us[j].id].value == us[j].value
  {
    if j < n - 1 {
      LastUpdateWins(m, us, n - 1, j);
    }
  }

  /** An attribute that none of the first `n` updates names keeps its holder unchanged. */
  lemma {:induction false} UntouchedAttributeKept(m: map<int, Attribute>, us: seq<Update>, n: nat, id: int)
    requires n <= |us| && id in m
    requires forall k :: 0 <= k < n ==> us[k].id != id
    ensures Applied(m, us, n)[id] == m[id]
  {
    if n > 0 {
      UntouchedAttributeKept(m, us, n - 1, id);
    }
  }

  /**
   * The callback order: the callback for update `i` and listener `j` sits
   * at position `i * |ls| + j`, so updates are notified in batch order and,
   * within one update, listeners in registration order.
   */
  lemma {:induction false} NotificationPosition(ls: seq<Listener>, us: seq<Update>, n: nat, i: nat, j: nat)
    requires n <= |us| && i < n && j < |ls|
    ensures i * |ls| + j < |Notifications(ls, us, n)|
    ensures Notifications(ls, us, n)[i * |ls| + j] == Notification(ls[j], us[i].id)
  {
    var w := |ls|;
    var prefix := Notifications(ls, us, n - 1);
    assert Notifications(ls, us, n) == prefix + NotificationsFor(ls, us[n - 1].id);
    if i < n - 1 {
      BlockBelow(i, n - 1, j, w);
      NotificationPosition(ls, us, n - 1, i, j);
    }
  }

  /** Position `j` of block `i` lies before the start of block `b` when `i < b`. */
  lemma {:induction false} BlockBelow(i: nat, b: nat, j: nat, w: nat)
    requires i < b && j < w
    ensures i * w + j < b * w
  {
    NextBlock(b - 1, w);
    if i + 1 < b {
      BlockBelow(i, b - 1, j, w);
    }
  }

  /** Block `a + 1` starts `w` positions after block `a`. */
  lemma NextBlock(a: nat, w: nat)
    ensures (a + 1) * w == a * w + w
  {
  }
}
