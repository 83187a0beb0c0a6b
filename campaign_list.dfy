/**
 * The campaign overview table: per campaign, the seller's name, a coloured status
 * badge, and the credits spent and remaining, folded over the campaign's products.
 */
module CampaignList {
  import opened Options

  datatype CampaignProduct = CampaignProduct(allocatedCredits: int, remainingCredits: int)

  /** The seller record as fetched; its `name` may be missing. */
  datatype Seller = Seller(name: Option<string>)

  datatype ListedCampaign = ListedCampaign(
    id: int, name: string, status: string, seller: Option<Seller>, products: seq<CampaignProduct>)

  /** Reference sums over the products, independent of the page's folds. */
  function SumAllocated(ps: seq<CampaignProduct>): int
  {
    if ps == [] then 0 else ps[0].allocatedCredits + SumAllocated(ps[1..])
  }

  function SumRemaining(ps: seq<CampaignProduct>): int
  {
    if ps == [] then 0 else ps[0].remainingCredits + SumRemaining(ps[1..])
  }

  /**
   * `ps.reduce((s, p) => s + (p.allocatedCredits - p.remainingCredits), acc)`, a left fold:
   * it adds the total allocation less the total remaining to `acc`.
   */
  function SpentFold(acc: int, ps: seq<CampaignProduct>): (r: int)
    ensures r == acc + SumAllocated(ps) - SumRemaining(ps)
    decreases |ps|
  {
    if ps == [] then acc
    else SpentFold(acc + (ps[0].allocatedCredits - ps[0].remainingCredits), ps[1..])
  }

  /** `ps.reduce((s, p) => s + p.remainingCredits, acc)`, a left fold: it adds the total remaining to `acc`. */
  function RemainingFold(acc: int, ps: seq<CampaignProduct>): (r: int)
    ensures r == acc + SumRemaining(ps)
    decreases |ps|
  {
    if ps == [] then acc else RemainingFold(acc + ps[0].remainingCredits, ps[1..])
  }

  /** `spent`: the allocated credits less the remaining ones, summed over the products. */
  function Spent(ps: seq<CampaignProduct>): (r: int)
    ensures r == SumAllocated(ps) - SumRemaining(ps)
  {
    SpentFold(0, ps)
  }

  /** `remaining`: the remaining credits summed over the products. */
  function Remaining(ps: seq<CampaignProduct>): (r: int)
    ensures r == SumRemaining(ps)
  {
    RemainingFold(0, ps)
  }

  /** Spent and remaining credits together are the allocated credits; an empty campaign shows 0 and 0. */
  lemma CreditsConserved(ps: seq<CampaignProduct>)
    ensures Spent(ps) + Remaining(ps) == SumAllocated(ps)
    ensures ps == [] ==> Spent(ps) == 0 && Remaining(ps) == 0
  {
  }

  /** Nothing clamps `spent`: when every product holds more than it was allocated, the campaign shows a negative spend. */
  lemma {:induction false} OverdrawnSpendIsNegative(ps: seq<CampaignProduct>)
    requires ps != []
    requires forall i :: 0 <= i < |ps| ==> ps[i].remainingCredits > ps[i].allocatedCredits
    ensures Spent(ps) < 0
  {
    if |ps| > 1 {
      OverdrawnSpendIsNegative(ps[1..]);
    } else {
      assert ps[1..] == [];
      assert ps[0].remainingCredits > ps[0].allocatedCredits;
      assert SumAllocated(ps) - SumRemaining(ps) == ps[0].allocatedCredits - ps[0].remainingCredits;
    }
  }

  /** When no product holds more than it was allocated, the spend is not negative. */
  lemma {:induction false} SpendNonNegative(ps: seq<CampaignProduct>)
    requires forall i :: 0 <= i < |ps| ==> ps[i].remainingCredits <= ps[i].allocatedCredits
    ensures Spent(ps) >= 0
  {
    if ps != [] {
      SpendNonNegative(ps[1..]);
    }
  }

  const PendingStyle: string := "bg-yellow-50 text-yellow-700 border-yellow-200"
  const ActiveStyle: string := "bg-green-50 text-amazon-success border-green-200"
  const PausedStyle: string := "bg-amazon-lightGray text-amazon-mutedText border-amazon-borderGray"
  const CompletedStyle: string := "bg-blue-50 text-blue-700 border-blue-200"
  const RejectedStyle: string := "bg-red-50 text-amazon-danger border-amazon-danger/30"
  const DefaultStatusStyle: string := "bg-gray-100 border-gray-200"

  /** The badge classes of `getStatusStyle` for the statuses it lists. */
  const StatusStyles: map<string, string> := map[
    "PENDING" := PendingStyle,
    "ACTIVE" := ActiveStyle,
    "PAUSED" := PausedStyle,
    "COMPLETED" := CompletedStyle,
    "REJECTED" := RejectedStyle
  ]

  /** `getStatusStyle`: the listed class, or the gray default for any other status. */
  function StatusStyle(status: string): (cls: string)
    ensures cls != ""
    ensures cls == DefaultStatusStyle || (status in StatusStyles && cls == StatusStyles[status])
  {
    StatusStylesEntries();
    if status in StatusStyles then StatusStyles[status] else DefaultStatusStyle
  }

  /** The five keys of the table, and the class each one maps to. */
  lemma StatusStylesEntries()
    ensures StatusStyles.Keys == {"PENDING", "ACTIVE", "PAUSED", "COMPLETED", "REJECTED"}
    ensures StatusStyles["PENDING"] == PendingStyle && StatusStyles["ACTIVE"] == ActiveStyle
    ensures StatusStyles["PAUSED"] == PausedStyle && StatusStyles["COMPLETED"] == CompletedStyle
    ensures StatusStyles["REJECTED"] == RejectedStyle
  {
    // the keys differ at their first or second character
    assert "PENDING"[1] != "PAUSED"[1];
  }

  /**
   * The lookup is total and tells the listed statuses apart: each of them gets its own class,
   * and the gray default is what every other status gets.
   */
  lemma StatusStyleSeparates(status: string, other: string)
    ensures StatusStyle(status) != ""
    ensures StatusStyle(status) == DefaultStatusStyle <==> status !in StatusStyles
    ensures status in StatusStyles && other in StatusStyles && status != other ==> StatusStyle(status) != StatusStyle(other)
  {
    StatusStylesEntries();
    // the six classes have six different lengths
    assert |PendingStyle| == 46 && |ActiveStyle| == 48 && |PausedStyle| == 66;
    assert |CompletedStyle| == 40 && |RejectedStyle| == 52 && |DefaultStatusStyle| == 27;
  }

  /** The listed classes, status by status. */
  lemma StatusStyleTable()
    ensures StatusStyle("PENDING") == "bg-yellow-50 text-yellow-700 border-yellow-200"
    ensures StatusStyle("ACTIVE") == "bg-green-50 text-amazon-success border-green-200"
    ensures StatusStyle("PAUSED") == "bg-amazon-lightGray text-amazon-mutedText border-amazon-borderGray"
    ensures StatusStyle("COMPLETED") == "bg-blue-50 text-blue-700 border-blue-200"
    ensures StatusStyle("REJECTED") == "bg-red-50 text-amazon-danger border-amazon-danger/30"
    ensures StatusStyle("pending") == DefaultStatusStyle
  {
    StatusStylesEntries();
    assert "pending"[0] != "PENDING"[0];
  }

  const IndependentSeller: string := "Independent Seller"

  /** `c.seller?.name || "Independent Seller"`: the name when there is a seller with a non-empty name. */
  function SellerLabel(seller: Option<Seller>): (shown: string)
    ensures shown != ""
    ensures shown == IndependentSeller || (seller.Some? && seller.value.name == Some(shown))
    ensures (seller.Some? && seller.value.name.Some? && seller.value.name.value != "") ==> shown == seller.value.name.value
  {
    if seller.Some? && seller.value.name.Some? && seller.value.name.value != "" then seller.value.name.value
    else IndependentSeller
  }

  /** One row of the table. */
  datatype Row = Row(seller: string, name: string, status: string, style: string, spent: int, remaining: int)

  function RowOf(c: ListedCampaign): (row: Row)
    ensures row.name == c.name && row.status == c.status
    ensures row.seller == SellerLabel(c.seller) && row.style == StatusStyle(c.status)
    ensures row.spent == SumAllocated(c.products) - SumRemaining(c.products)
    ensures row.remaining == SumRemaining(c.products)
    ensures row.spent + row.remaining == SumAllocated(c.products)
    ensures row.seller != ""
    ensures row.style == DefaultStatusStyle <==> c.status !in StatusStyles
  {
    CreditsConserved(c.products);
    StatusStyleSeparates(c.status, c.status);
    Row(SellerLabel(c.seller), c.name, c.status, StatusStyle(c.status), Spent(c.products), Remaining(c.products))
  }
}
