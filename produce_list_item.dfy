/**
 * One row of the farmer's listing table: its thumbnail, its status badge and
 * the buttons it offers.
 */
module ProduceListItem {
  import opened Types
  import opened Text

  /** The first photo, or the default image when there is none. */
  function Thumbnail(p: Produce): (r: string)
    ensures p.photos != [] ==> r == p.photos[0]
    ensures p.photos == [] ==> r == DEFAULT_PRODUCE_IMAGE
  {
    if |p.photos| > 0 then p.photos[0] else DEFAULT_PRODUCE_IMAGE
  }

  /** `status.replace('_', ' ').toUpperCase()`. */
  function StatusLabel(s: ProduceStatus): string {
    Upper(ReplaceFirst(StatusText(s), '_', ' '))
  }

  /** The sold-out badge: the underscore becomes a space. */
  lemma SoldOutLabel()
    ensures StatusLabel(SoldOut) == "SOLD OUT"
  {
    SoldOutSpaced();
    SoldOutCapitals();
  }

  /** The underscore of "sold_out" becomes a space. */
  lemma SoldOutSpaced()
    ensures ReplaceFirst("sold_out", '_', ' ') == "sold out"
  {
    var s := "sold_out";
    FirstCharIndexIs(s, '_', 4);
    assert ReplaceFirst(s, '_', ' ') == s[..4] + [' '] + s[5..];
  }

  /** "sold out" in capitals. */
  lemma SoldOutCapitals()
    ensures Upper("sold out") == "SOLD OUT"
  {
    var t := "sold out";
    var u := Upper(t);
    var expected := "SOLD OUT";
    forall i | 0 <= i < 8 ensures u[i] == expected[i] {
      assert u[i] == UpperChar(t[i]);
    }
  }

  /** The other badges are the status text in capitals, unchanged otherwise. */
  lemma PlainLabel(s: ProduceStatus)
    requires s != SoldOut
    ensures StatusLabel(s) == Upper(StatusText(s))
  {
    var t := StatusText(s);
    assert forall i :: 0 <= i < |t| ==> t[i] != '_';
  }

  /** A button of the row. */
  datatype ItemAction = Edit | SetStatus(to: ProduceStatus) | Delete

  /** Edit and Delete always; "Mark Sold Out" on an active listing, "Relist" on a sold-out one. */
  function Actions(s: ProduceStatus): (r: seq<ItemAction>)
    ensures |r| >= 2 && r[0] == Edit && r[|r| - 1] == Delete
    ensures SetStatus(SoldOut) in r <==> s == Active
    ensures SetStatus(Active) in r <==> s == SoldOut
    ensures forall a :: a in r && a.SetStatus? ==> a.to == Active || a.to == SoldOut
  {
    [Edit] + (if s == Active then [SetStatus(SoldOut)] else if s == SoldOut then [SetStatus(Active)] else []) + [Delete]
  }

  /** Using the status button twice brings a listing back to where it started. */
  lemma StatusButtonIsAToggle(s: ProduceStatus, t: ProduceStatus)
    requires SetStatus(t) in Actions(s)
    ensures SetStatus(s) in Actions(t) && t != s
  {
  }

  /** Expired and draft listings offer no status button. */
  lemma NoToggleForExpiredOrDraft(s: ProduceStatus)
    requires s == Expired || s == Draft
    ensures Actions(s) == [Edit, Delete]
  {
  }
}
