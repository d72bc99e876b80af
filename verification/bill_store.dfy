/** The bill store's state transitions (src/store/billStore.ts). The store's
    state is the ordered list of bills; each action is a pure function from the
    current list to the next one. A rejected action returns the list unchanged. */
module BillStore {
  import opened Wrappers
  import opened BillTypes

  /** The most bills the store holds. */
  const MaxBills: nat := 1000

  /** The longest bill name, in characters, that the store and the form accept. */
  const MaxNameLength: nat := 100

  /** The store's check of a bill's fields: a name of 1 to 100 characters, a
      non-negative amount, a date that is present and parses, and a non-empty
      category and frequency. Category and frequency are not checked against
      the listed names. */
  function ValidateBill(d: BillData, parse: DateParser): (ok: bool)
    ensures ok <==>
      && 0 < |d.name| <= MaxNameLength
      && d.amount >= 0.0
      && d.date != [] && parse(d.date).Some?
      && d.category != [] && d.frequency != []
  {
    if d.name == [] || |d.name| > MaxNameLength then false
    else if d.amount < 0.0 then false
    else if d.date == [] || parse(d.date).None? then false
    else if d.category == [] || d.frequency == [] then false
    else true
  }

  /** Appends the bill under the caller-supplied id, unless the data is invalid
      or the store is full, in which case nothing changes. */
  function AddBill(bills: seq<Bill>, data: BillData, id: string, parse: DateParser): (r: seq<Bill>)
    ensures !ValidateBill(data, parse) ==> r == bills
    ensures |bills| >= MaxBills ==> r == bills
    ensures ValidateBill(data, parse) && |bills| < MaxBills ==>
      |r| == |bills| + 1 && r[..|bills|] == bills && r[|bills|] == Bill(id, data)
  {
    if !ValidateBill(data, parse) then bills
    else if |bills| >= MaxBills then bills
    else bills + [Bill(id, data)]
  }

  /** Every entry whose id is `u.id` replaced by `u`, everything else in place. */
  function ReplaceById(bills: seq<Bill>, u: Bill): (r: seq<Bill>)
    ensures |r| == |bills|
    ensures forall i :: 0 <= i < |r| ==> r[i] == (if bills[i].id == u.id then u else bills[i])
  {
    if bills == [] then []
    else [if bills[0].id == u.id then u else bills[0]] + ReplaceById(bills[1..], u)
  }

  /** Replaces in place every entry with the updated bill's id, if the updated
      bill's fields are valid; otherwise nothing changes. */
  function UpdateBill(bills: seq<Bill>, u: Bill, parse: DateParser): (r: seq<Bill>)
    ensures |r| == |bills|
    ensures !ValidateBill(u.data, parse) ==> r == bills
    ensures ValidateBill(u.data, parse) ==>
      forall i :: 0 <= i < |r| ==> r[i] == (if bills[i].id == u.id then u else bills[i])
  {
    if !ValidateBill(u.data, parse) then bills else ReplaceById(bills, u)
  }

  /** Removes every entry with the given id, keeping the others in order. */
  function DeleteBill(bills: seq<Bill>, id: string): (r: seq<Bill>)
    ensures |r| <= |bills|
    ensures forall i :: 0 <= i < |r| ==> r[i].id != id
  {
    if bills == [] then []
    else if bills[0].id == id then DeleteBill(bills[1..], id)
    else [bills[0]] + DeleteBill(bills[1..], id)
  }

  /** Some entry carries the given id. */
  predicate HasId(bills: seq<Bill>, id: string) {
    exists i :: 0 <= i < |bills| && bills[i].id == id
  }

  predicate UniqueIds(bills: seq<Bill>) {
    forall i, j :: 0 <= i < j < |bills| ==> bills[i].id != bills[j].id
  }

  predicate AllValid(bills: seq<Bill>, parse: DateParser) {
    forall i :: 0 <= i < |bills| ==> ValidateBill(bills[i].data, parse)
  }

  /** How many entries carry the given id. */
  function CountId(bills: seq<Bill>, id: string): nat
  {
    if bills == [] then 0
    else (if bills[0].id == id then 1 else 0) + CountId(bills[1..], id)
  }

  /** The first bill with the given id, if any. */
  function FindById(bills: seq<Bill>, id: string): (r: Option<Bill>)
    ensures r.Some? ==> r.value in bills && r.value.id == id
    ensures r.None? <==> !HasId(bills, id)
  {
    if bills == [] then None
    else if bills[0].id == id then Some(bills[0])
    else
      assert forall i :: 0 < i < |bills| ==> bills[i] == bills[1..][i - 1];
      FindById(bills[1..], id)
  }

  // ---------------------------------------------------------------------
  // Add

  /** A full store ignores even a valid bill: the 1001st add is a no-op. */
  lemma AddAtCapacityIsNoOp(bills: seq<Bill>, data: BillData, id: string, parse: DateParser)
    requires |bills| == MaxBills && ValidateBill(data, parse)
    ensures AddBill(bills, data, id, parse) == bills
  {
  }

  /** After a successful add under a fresh id, looking the id up gives back
      exactly the submitted fields, and the ids stay unique. */
  lemma AddThenFind(bills: seq<Bill>, data: BillData, id: string, parse: DateParser)
    requires ValidateBill(data, parse) && |bills| < MaxBills
    requires !HasId(bills, id) && UniqueIds(bills)
    ensures FindById(AddBill(bills, data, id, parse), id) == Some(Bill(id, data))
    ensures UniqueIds(AddBill(bills, data, id, parse))
  {
    FindAppendFresh(bills, Bill(id, data));
  }

  /** Adding under an id that is already present breaks uniqueness: the
      store itself never checks the id it is given. */
  lemma AddReusedIdBreaksUniqueness(bills: seq<Bill>, data: BillData, id: string, parse: DateParser)
    requires ValidateBill(data, parse) && |bills| < MaxBills && HasId(bills, id)
    ensures !UniqueIds(AddBill(bills, data, id, parse))
  {
    var r := AddBill(bills, data, id, parse);
    var i :| 0 <= i < |bills| && bills[i].id == id;
    assert r[i].id == r[|bills|].id;
  }

  lemma {:induction false} FindAppendFresh(bills: seq<Bill>, b: Bill)
    requires !HasId(bills, b.id)
    ensures FindById(bills + [b], b.id) == Some(b)
  {
    if bills != [] {
      assert (bills + [b])[1..] == bills[1..] + [b];
      assert forall i :: 0 <= i < |bills[1..]| ==> bills[1..][i] == bills[i + 1];
      FindAppendFresh(bills[1..], b);
    }
  }

  // ---------------------------------------------------------------------
  // Update

  /** Updating never changes the id at any position. */
  lemma UpdateKeepsIds(bills: seq<Bill>, u: Bill, parse: DateParser)
    ensures forall i :: 0 <= i < |bills| ==> UpdateBill(bills, u, parse)[i].id == bills[i].id
  {
  }

  /** Updating an id that is not present leaves the list as it was. */
  lemma UpdateAbsentIsNoOp(bills: seq<Bill>, u: Bill, parse: DateParser)
    requires !HasId(bills, u.id)
    ensures UpdateBill(bills, u, parse) == bills
  {
  }

  /** With unique ids, an update of the bill at position k changes exactly
      position k. */
  lemma UpdatePresentReplacesOne(bills: seq<Bill>, k: nat, u: Bill, parse: DateParser)
    requires UniqueIds(bills) && k < |bills| && bills[k].id == u.id
    requires ValidateBill(u.data, parse)
    ensures UpdateBill(bills, u, parse) == bills[k := u]
  {
  }

  // ---------------------------------------------------------------------
  // Delete

  /** Deleting an absent id is a no-op. */
  lemma {:induction false} DeleteAbsentIsNoOp(bills: seq<Bill>, id: string)
    requires !HasId(bills, id)
    ensures DeleteBill(bills, id) == bills
  {
    if bills != [] {
      assert forall i :: 0 <= i < |bills[1..]| ==> bills[1..][i] == bills[i + 1];
      DeleteAbsentIsNoOp(bills[1..], id);
    }
  }

  /** The survivors of a delete are exactly the entries with another id. */
  lemma {:induction false} DeleteKeepsOthers(bills: seq<Bill>, id: string)
    ensures forall b :: b in DeleteBill(bills, id) <==> b in bills && b.id != id
  {
    if bills != [] {
      DeleteKeepsOthers(bills[1..], id);
      assert forall b :: b in bills <==> b == bills[0] || b in bills[1..];
    }
  }

  /** Deleting works piecewise on a concatenation, so the survivors keep
      their relative order. */
  lemma {:induction false} DeleteConcat(a: seq<Bill>, b: seq<Bill>, id: string)
    ensures DeleteBill(a + b, id) == DeleteBill(a, id) + DeleteBill(b, id)
  {
    if a == [] {
      assert a + b == b;
    } else {
      assert (a + b)[0] == a[0];
      assert (a + b)[1..] == a[1..] + b;
      DeleteConcat(a[1..], b, id);
    }
  }

  /** Exactly the entries carrying the id are removed. */
  lemma {:induction false} DeleteCount(bills: seq<Bill>, id: string)
    ensures |DeleteBill(bills, id)| == |bills| - CountId(bills, id)
  {
    if bills != [] {
      DeleteCount(bills[1..], id);
    }
  }

  /** Deleting twice is the same as deleting once. */
  lemma DeleteIdempotent(bills: seq<Bill>, id: string)
    ensures DeleteBill(DeleteBill(bills, id), id) == DeleteBill(bills, id)
  {
    var r := DeleteBill(bills, id);
    assert forall i :: 0 <= i < |r| ==> r[i] in r;
    DeleteAbsentIsNoOp(r, id);
  }

  /** With unique ids, deleting the id at position k removes that entry and
      no other. */
  lemma DeletePresentRemovesOne(bills: seq<Bill>, k: nat)
    requires UniqueIds(bills) && k < |bills|
    ensures DeleteBill(bills, bills[k].id) == bills[..k] + bills[k + 1..]
  {
    var front, back := bills[..k], bills[k + 1..];
    UniqueSlicesLackId(bills, k);
    assert bills == front + [bills[k]] + back;
    DeleteSplit(front, bills[k], back);
  }

  /** Deleting the id of an entry that occurs nowhere else cuts out just it. */
  lemma DeleteSplit(front: seq<Bill>, x: Bill, back: seq<Bill>)
    requires !HasId(front, x.id) && !HasId(back, x.id)
    ensures DeleteBill(front + [x] + back, x.id) == front + back
  {
    DeleteConcat(front + [x], back, x.id);
    DeleteConcat(front, [x], x.id);
    DeleteSingle(x);
    DeleteAbsentIsNoOp(front, x.id);
    DeleteAbsentIsNoOp(back, x.id);
  }

  lemma DeleteSingle(b: Bill)
    ensures DeleteBill([b], b.id) == []
  {
    assert [b][1..] == [];
  }

  /** With unique ids, the id at position k occurs nowhere else. */
  lemma UniqueSlicesLackId(bills: seq<Bill>, k: nat)
    requires UniqueIds(bills) && k < |bills|
    ensures !HasId(bills[..k], bills[k].id) && !HasId(bills[k + 1..], bills[k].id)
  {
    var front, back := bills[..k], bills[k + 1..];
    forall i | 0 <= i < |front| ensures front[i].id != bills[k].id {
      assert front[i] == bills[i];
    }
    forall i | 0 <= i < |back| ensures back[i].id != bills[k].id {
      assert back[i] == bills[k + 1 + i];
    }
  }

  /** Deleting keeps the ids unique. */
  lemma {:induction false} DeleteKeepsUnique(bills: seq<Bill>, id: string)
    requires UniqueIds(bills)
    ensures UniqueIds(DeleteBill(bills, id))
  {
    if bills != [] {
      var rest := bills[1..];
      assert forall i :: 0 <= i < |rest| ==> rest[i] == bills[i + 1];
      DeleteKeepsUnique(rest, id);
      var tail := DeleteBill(rest, id);
      DeleteKeepsOthers(rest, id);
      if bills[0].id != id {
        forall j | 0 <= j < |tail| ensures tail[j].id != bills[0].id {
          assert tail[j] in tail;
        }
        assert DeleteBill(bills, id) == [bills[0]] + tail;
      }
    }
  }

  // ---------------------------------------------------------------------
  // Sequences of actions

  /** One call into the store, as the presentation layer issues it. */
  datatype StoreAction =
    | AddAction(data: BillData, newId: string)
    | UpdateAction(bill: Bill)
    | DeleteAction(id: string)

  function Apply(bills: seq<Bill>, a: StoreAction, parse: DateParser): seq<Bill>
  {
    match a
    case AddAction(data, newId) => AddBill(bills, data, newId, parse)
    case UpdateAction(bill) => UpdateBill(bills, bill, parse)
    case DeleteAction(id) => DeleteBill(bills, id)
  }

  /** The store after the actions, applied in order. */
  function Run(bills: seq<Bill>, actions: seq<StoreAction>, parse: DateParser): seq<Bill>
    decreases |actions|
  {
    if actions == [] then bills else Run(Apply(bills, actions[0], parse), actions[1..], parse)
  }

  /** No sequence of actions takes a store within capacity beyond it. */
  lemma {:induction false} RunStaysWithinCapacity(bills: seq<Bill>, actions: seq<StoreAction>, parse: DateParser)
    requires |bills| <= MaxBills
    ensures |Run(bills, actions, parse)| <= MaxBills
    decreases |actions|
  {
    if actions != [] {
      RunStaysWithinCapacity(Apply(bills, actions[0], parse), actions[1..], parse);
    }
  }

  /** Every bill the store holds passed validation: actions keep a list of
      valid bills valid. */
  lemma {:induction false} RunKeepsBillsValid(bills: seq<Bill>, actions: seq<StoreAction>, parse: DateParser)
    requires AllValid(bills, parse)
    ensures AllValid(Run(bills, actions, parse), parse)
    decreases |actions|
  {
    if actions != [] {
      var next := Apply(bills, actions[0], parse);
      if actions[0].DeleteAction? {
        DeleteKeepsOthers(bills, actions[0].id);
        forall i | 0 <= i < |next| ensures ValidateBill(next[i].data, parse) {
          assert next[i] in next;
        }
      }
      RunKeepsBillsValid(next, actions[1..], parse);
    }
  }
}
