/** The "Payment Management" screen: outstanding balances per shop, the
    payment dialog, and the log of recorded payments. */
module Payments {
  import Text
  import Records
  import Search
  import opened Options

  datatype Shop = Shop(id: int, name: string, outstanding: int, balance: int)

  datatype PaymentLog = PaymentLog(
    id: int, shopName: string, amount: int, payMethod: string, note: string, date: string)

  /** The dialog's form. `shopId` is `None` while the field is still `''`;
      `amount` is what `parseFloat` makes of the typed text, `None` standing
      for `NaN` (which is what the empty field parses to). */
  datatype PaymentDetails = PaymentDetails(shopId: Option<int>, amount: Option<int>, payMethod: string, note: string)

  /** How `recordPayment` ends: the "Please fill in all fields." alert, the
      success alert, or the `TypeError` thrown when no shop has the id. */
  datatype Outcome = MissingFields | Recorded | ShopNotFound

  const EmptyDetails := PaymentDetails(None, None, "", "")

  /** JavaScript truthiness of the id field: `''` and `0` are falsy. */
  predicate IdGiven(shopId: Option<int>) {
    shopId.Some? && shopId.value != 0
  }

  /** JavaScript truthiness of `parseFloat(amount)`: `NaN` and `0` are falsy. */
  predicate AmountGiven(amount: Option<int>) {
    amount.Some? && amount.value != 0
  }

  /** The guard of `recordPayment`. */
  predicate Complete(d: PaymentDetails)
    ensures Complete(d) ==> d.shopId.Some? && d.amount.Some? && d.amount.value != 0 && d.payMethod != ""
    ensures d.amount.None? ==> !Complete(d)
  {
    IdGiven(d.shopId) && AmountGiven(d.amount) && d.payMethod != ""
  }

  function Max(a: int, b: int): int {
    if a >= b then a else b
  }

  /** `shops.find(shop => shop.id === id)`: the first shop with the id. */
  function FindShop(shops: seq<Shop>, id: int): (r: Option<Shop>)
    ensures r.None? <==> forall i :: 0 <= i < |shops| ==> shops[i].id != id
    ensures r.Some? ==> exists k :: 0 <= k < |shops| && shops[k] == r.value && r.value.id == id &&
                                    forall i :: 0 <= i < k ==> shops[i].id != id
  {
    if shops == [] then None
    else if shops[0].id == id then Some(shops[0])
    else
      var r := FindShop(shops[1..], id);
      assert r.Some? ==> exists k :: 0 <= k < |shops| - 1 && shops[1..][k] == r.value && r.value.id == id &&
                                     forall i :: 0 <= i < k ==> shops[1..][i].id != id;
      assert r.Some? ==> exists k :: 0 <= k < |shops| && shops[k] == r.value && r.value.id == id &&
                                     forall i :: 0 <= i < k ==> shops[i].id != id by {
        if r.Some? {
          var k :| 0 <= k < |shops| - 1 && shops[1..][k] == r.value && r.value.id == id &&
                   forall i :: 0 <= i < k ==> shops[1..][i].id != id;
          assert shops[k + 1] == r.value;
          assert forall i :: 0 <= i < k + 1 ==> shops[i].id != id by {
            forall i | 0 <= i < k + 1 ensures shops[i].id != id {
              if i > 0 { assert shops[i] == shops[1..][i - 1]; }
            }
          }
        }
      }
      r
  }

  /** The shops after a payment of `amount` to shop `id`:
      `outstanding: Math.max(shop.outstanding - amount, 0)` on every shop
      with that id, every other shop and every other field unchanged. */
  function ApplyPayment(shops: seq<Shop>, id: int, amount: int): (r: seq<Shop>)
    ensures |r| == |shops|
    ensures forall i :: 0 <= i < |shops| && shops[i].id != id ==> r[i] == shops[i]
    ensures forall i :: 0 <= i < |shops| && shops[i].id == id ==>
              r[i] == shops[i].(outstanding := Max(shops[i].outstanding - amount, 0))
    ensures forall i :: 0 <= i < |shops| && shops[i].id == id ==> r[i].outstanding >= 0
  {
    Records.MapWhere(shops, (s: Shop) => s.id == id, (s: Shop) => s.(outstanding := Max(s.outstanding - amount, 0)))
  }

  /** No shop owes a negative amount. */
  predicate NoNegativeOutstanding(shops: seq<Shop>) {
    forall i :: 0 <= i < |shops| ==> shops[i].outstanding >= 0
  }

  /** A payment, of any amount, keeps every outstanding amount non-negative. */
  lemma PaymentKeepsOutstandingNonNegative(shops: seq<Shop>, id: int, amount: int)
    requires NoNegativeOutstanding(shops)
    ensures NoNegativeOutstanding(ApplyPayment(shops, id, amount))
  {
  }

  /** A payment never changes which shops there are, their names or their
      balances. */
  lemma PaymentKeepsIdentity(shops: seq<Shop>, id: int, amount: int)
    ensures forall i :: 0 <= i < |shops| ==>
              ApplyPayment(shops, id, amount)[i].(outstanding := 0) == shops[i].(outstanding := 0)
  {
  }

  /** The log ids are 1, 2, 3, ... in order. */
  predicate SequentialLogIds(logs: seq<PaymentLog>) {
    forall i :: 0 <= i < |logs| ==> logs[i].id == i + 1
  }

  /** The log entry for a recorded payment. */
  function NewLog(logs: seq<PaymentLog>, shopName: string, d: PaymentDetails, now: string): (l: PaymentLog)
    requires d.amount.Some?
    ensures l.id == |logs| + 1
    ensures l.amount == d.amount.value && l.payMethod == d.payMethod && l.note == d.note
    ensures l.shopName == shopName && l.date == now
  {
    PaymentLog(|logs| + 1, shopName, d.amount.value, d.payMethod, d.note, now)
  }

  /** Appending the entry `recordPayment` builds keeps the ids sequential. */
  lemma {:induction false} NewLogKeepsSequentialIds(logs: seq<PaymentLog>, shopName: string, d: PaymentDetails, now: string)
    requires d.amount.Some?
    requires SequentialLogIds(logs)
    ensures SequentialLogIds(logs + [NewLog(logs, shopName, d, now)])
  {
  }

  function SeedShops(): seq<Shop> {
    [Shop(1, "Shop A", 5000, 10000), Shop(2, "Shop B", 2000, 6000),
     Shop(3, "Shop C", 1500, 4500), Shop(4, "Shop D", 3000, 7000)]
  }

  function SeedLogs(): seq<PaymentLog> {
    [PaymentLog(1, "Shop A", 1000, "Cash", "Monthly payment", "2024-12-01 10:00:00"),
     PaymentLog(2, "Shop B", 500, "Cheque", "Payment for goods", "2024-12-05 12:00:00"),
     PaymentLog(3, "Shop C", 700, "Credit", "Late payment", "2024-12-10 14:00:00")]
  }

  /** `filteredShops`: the shops whose name contains the search term, ignoring
      case, in their original order; the empty term keeps them all. */
  function FilteredShops(shops: seq<Shop>, term: string): (r: seq<Shop>)
    ensures forall k :: 0 <= k < |r| ==> r[k] in shops && Text.Matches(r[k].name, term)
    ensures forall k :: 0 <= k < |shops| && Text.Matches(shops[k].name, term) ==> shops[k] in r
    ensures Records.IsSubsequence(r, shops)
    ensures forall k :: 0 <= k < |shops| ==>
              multiset(r)[shops[k]] == if Text.Matches(shops[k].name, term) then multiset(shops)[shops[k]] else 0
    ensures term == "" ==> r == shops
  {
    Search.ByField(shops, (s: Shop) => s.name, term)
  }

  /** The payment screen, in the state its mount effect leaves it: the dummy
      shops and logs loaded, the dialog closed. The log timestamp
      (`new Date().toLocaleString()`) is passed in by the caller. */
  class PaymentManagement {
    var shops: seq<Shop>
    var paymentLogs: seq<PaymentLog>
    var paymentDetails: PaymentDetails
    var isModalOpen: bool

    ghost predicate Valid()
      reads this
    {
      NoNegativeOutstanding(shops) && SequentialLogIds(paymentLogs)
    }

    constructor ()
      ensures Valid()
      ensures shops == SeedShops() && paymentLogs == SeedLogs()
      ensures paymentDetails == EmptyDetails && !isModalOpen
    {
      shops := SeedShops();
      paymentLogs := SeedLogs();
      paymentDetails := EmptyDetails;
      isModalOpen := false;
    }

    /** `openPaymentModal(shopId)`: selects the shop and clears the rest of
      the form. */
    method OpenPaymentModal(shopId: int)
      modifies this
      ensures paymentDetails == PaymentDetails(Some(shopId), None, "", "")
      ensures isModalOpen
      ensures shops == old(shops) && paymentLogs == old(paymentLogs)
    {
      paymentDetails := PaymentDetails(Some(shopId), None, "", "");
      isModalOpen := true;
    }

    /** `recordPayment`. */
    method RecordPayment(now: string) returns (outcome: Outcome)
      requires Valid()
      modifies this
      ensures Valid()
      ensures paymentDetails == old(paymentDetails)
      ensures outcome == MissingFields <==> !Complete(paymentDetails)
      ensures outcome == ShopNotFound <==>
                Complete(paymentDetails) && FindShop(old(shops), paymentDetails.shopId.value).None?
      ensures outcome != Recorded ==>
                shops == old(shops) && paymentLogs == old(paymentLogs) && isModalOpen == old(isModalOpen)
      ensures outcome == Recorded ==>
                var id := paymentDetails.shopId.value;
                shops == ApplyPayment(old(shops), id, paymentDetails.amount.value) &&
                paymentLogs == old(paymentLogs) +
                  [NewLog(old(paymentLogs), FindShop(old(shops), id).value.name, paymentDetails, now)] &&
                !isModalOpen
    {
      if !Complete(paymentDetails) {
        return MissingFields;
      }
      var id := paymentDetails.shopId.value;
      var found := FindShop(shops, id);
      if found.None? {
        return ShopNotFound;
      }
      PaymentKeepsOutstandingNonNegative(shops, id, paymentDetails.amount.value);
      NewLogKeepsSequentialIds(paymentLogs, found.value.name, paymentDetails, now);
      shops := ApplyPayment(shops, id, paymentDetails.amount.value);
      paymentLogs := paymentLogs + [NewLog(paymentLogs, found.value.name, paymentDetails, now)];
      isModalOpen := false;
      outcome := Recorded;
    }

    /** The rows of the "Outstanding Balances" table for a search term. */
    function VisibleShops(term: string): (r: seq<Shop>)
      reads this
      ensures Records.IsSubsequence(r, shops)
    {
      FilteredShops(shops, term)
    }
  }
}
