/**
 * The admin product list: the optimistic availability toggle, the
 * optimistic delete with its revert to a snapshot, and the storage key
 * read out of a product's public image URL.
 */
module MenuList {
  import opened Options
  import opened JsText

  datatype Category = Category(id: string, nameEs: string, nameZh: string, slug: string)

  /** A row of `menu_items` as the list holds it; the price is kept as a whole number. */
  datatype MenuItem = MenuItem(
    id: string,
    nameEs: string,
    nameZh: string,
    price: int,
    isAvailable: bool,
    imageUrl: Option<string>,
    categories: seq<Category>)

  /** How an awaited backend call ended: without error, with an error object, or by throwing. */
  datatype CallResult = Done | Failed(message: string) | Threw

  const ImagesMarker := "/menu-images/"
  const DbErrorAlertPrefix := "Error al eliminar el producto: "
  const UnexpectedErrorAlert := "Error inesperado al eliminar el producto"

  // ---------------------------------------------------------------------------
  // The list transforms
  // ---------------------------------------------------------------------------

  /**
   * `items.map(i => i.id === id ? { ...i, is_available: available } : i)`:
   * same length and order; the items with that id take the new availability
   * and keep every other field; all other items are untouched.
   */
  function WithAvailability(items: seq<MenuItem>, id: string, available: bool): (r: seq<MenuItem>)
    ensures |r| == |items|
    ensures forall k :: 0 <= k < |items| && items[k].id == id ==> r[k] == items[k].(isAvailable := available)
    ensures forall k :: 0 <= k < |items| && items[k].id != id ==> r[k] == items[k]
  {
    if items == [] then []
    else
      var head := if items[0].id == id then items[0].(isAvailable := available) else items[0];
      [head] + WithAvailability(items[1..], id, available)
  }

  /** Called with an item's own status, the toggle negates that item's availability. */
  lemma ToggleNegates(items: seq<MenuItem>, k: nat)
    requires k < |items|
    ensures var r := WithAvailability(items, items[k].id, !items[k].isAvailable);
            r[k].isAvailable == !items[k].isAvailable
            && r[k] == items[k].(isAvailable := !items[k].isAvailable)
  {
  }

  /** Setting the availability back to what every matching item had restores the list. */
  lemma WithAvailabilityUndo(items: seq<MenuItem>, id: string, current: bool)
    requires forall k :: 0 <= k < |items| && items[k].id == id ==> items[k].isAvailable == current
    ensures WithAvailability(WithAvailability(items, id, !current), id, current) == items
  {
    var r := WithAvailability(WithAvailability(items, id, !current), id, current);
    assert forall k :: 0 <= k < |items| ==> r[k] == items[k];
  }

  /** `items.filter(i => i.id !== id)`. */
  function WithoutId(items: seq<MenuItem>, id: string): (r: seq<MenuItem>)
    ensures |r| <= |items|
    ensures forall x :: x in r <==> x in items && x.id != id
  {
    if items == [] then []
    else if items[0].id == id then WithoutId(items[1..], id)
    else [items[0]] + WithoutId(items[1..], id)
  }

  /** The filter keeps relative order: it works piecewise over any cut of the list. */
  lemma {:induction false} WithoutIdConcat(a: seq<MenuItem>, b: seq<MenuItem>, id: string)
    ensures WithoutId(a + b, id) == WithoutId(a, id) + WithoutId(b, id)
  {
    if a == [] {
      assert a + b == b;
    } else {
      assert (a + b)[0] == a[0] && (a + b)[1..] == a[1..] + b;
      WithoutIdConcat(a[1..], b, id);
    }
  }

  /** How many items carry the id. */
  function CountId(items: seq<MenuItem>, id: string): nat {
    if items == [] then 0 else (if items[0].id == id then 1 else 0) + CountId(items[1..], id)
  }

  /** Exactly the matching items go: the list shrinks by their number. */
  lemma {:induction false} WithoutIdLength(items: seq<MenuItem>, id: string)
    ensures |WithoutId(items, id)| == |items| - CountId(items, id)
  {
    if items != [] {
      WithoutIdLength(items[1..], id);
    }
  }

  /** Removing an id no item carries leaves the list as it was. */
  lemma {:induction false} WithoutAbsentId(items: seq<MenuItem>, id: string)
    requires forall k :: 0 <= k < |items| ==> items[k].id != id
    ensures WithoutId(items, id) == items
  {
    if items != [] {
      WithoutAbsentId(items[1..], id);
    }
  }

  // ---------------------------------------------------------------------------
  // The storage key
  // ---------------------------------------------------------------------------

  /** `imageUrl.split('/menu-images/')[1]`, kept only when it is truthy (present and non-empty). */
  function StorageKey(url: string): Option<string> {
    var parts := Split(url, ImagesMarker);
    if |parts| >= 2 && parts[1] != "" then Some(parts[1]) else None
  }

  /**
   * The key is the text between the first `/menu-images/` and the next one
   * (or the end); there is none when the marker is missing or that text is
   * empty, and a key never contains the marker.
   */
  lemma StorageKeyBetweenMarkers(url: string)
    ensures IndexOf(url, ImagesMarker, 0).None? ==> StorageKey(url).None?
    ensures IndexOf(url, ImagesMarker, 0).Some? ==>
              var start := IndexOf(url, ImagesMarker, 0).value + |ImagesMarker|;
              var end := PieceEnd(url, ImagesMarker, start);
              start <= end <= |url|
              && StorageKey(url) == if start < end then Some(url[start..end]) else None
    ensures StorageKey(url).Some? ==> forall k :: !OccursAt(StorageKey(url).value, ImagesMarker, k)
  {
    SecondPiece(url, ImagesMarker);
    SplitPiecesFree(url, ImagesMarker);
  }

  // ---------------------------------------------------------------------------
  // The component's list state
  // ---------------------------------------------------------------------------

  /** The `items` and `loading` state of the `MenuList` component. */
  class MenuListState {
    var items: seq<MenuItem>
    var loading: bool

    /** `useState<MenuItem[]>([])` and `useState(true)`. */
    constructor ()
      ensures items == [] && loading
    {
      items := [];
      loading := true;
    }

    /** `fetchItems`: the fetched rows replace the list; on a fetch error the list stays. */
    method FetchItems(fetched: Option<seq<MenuItem>>)
      modifies this
      ensures items == (if fetched.Some? then fetched.value else old(items))
      ensures !loading
    {
      loading := true;
      if fetched.Some? {
        items := fetched.value;
      }
      loading := false;
    }

    /**
     * `toggleStock`: flip the list optimistically, send `!currentStatus`; when
     * the update reports an error, re-fetch, which replaces the list only if
     * that fetch succeeds. The function has no `catch`: an update that throws
     * rejects before the re-fetch, leaving the optimistic flip in place.
     */
    method ToggleStock(id: string, currentStatus: bool, update: CallResult, refetched: Option<seq<MenuItem>>)
      returns (sent: bool)
      modifies this
      ensures sent == !currentStatus
      ensures !update.Failed? ==> items == WithAvailability(old(items), id, !currentStatus)
      ensures update.Failed? && refetched.Some? ==> items == refetched.value
      ensures update.Failed? && refetched.None? ==> items == WithAvailability(old(items), id, !currentStatus)
      ensures loading == (if update.Failed? then false else old(loading))
    {
      items := WithAvailability(items, id, !currentStatus);
      sent := !currentStatus;
      if update.Failed? {
        FetchItems(refetched);
      }
    }

    /**
     * `deleteProduct`: after a confirmed dialog, remove the item
     * optimistically, try to remove its image, then delete the row; revert to
     * the snapshot on a database error or on anything thrown.
     */
    method DeleteProduct(id: string, imageUrl: Option<string>, confirmed: bool, storage: CallResult, db: CallResult)
      returns (removedKey: Option<string>, deleteSent: bool, alert: Option<string>)
      modifies this
      ensures !confirmed ==> items == old(items) && removedKey.None? && !deleteSent && alert.None?
      ensures confirmed ==> removedKey == (if imageUrl.Some? && imageUrl.value != "" then StorageKey(imageUrl.value) else None)
      ensures deleteSent <==> confirmed && !(removedKey.Some? && storage.Threw?)
      ensures items == if deleteSent && db.Done? then WithoutId(old(items), id) else old(items)
      ensures alert == if !confirmed || (deleteSent && db.Done?) then None
                       else if deleteSent && db.Failed? then Some(DbErrorAlertPrefix + db.message)
                       else Some(UnexpectedErrorAlert)
      ensures loading == old(loading)
    {
      removedKey, deleteSent, alert := None, false, None;
      if !confirmed {
        return;
      }
      var previousItems := items;
      items := WithoutId(items, id);

      if imageUrl.Some? && imageUrl.value != "" {
        removedKey := StorageKey(imageUrl.value);
        if removedKey.Some? && storage.Threw? {
          items := previousItems;
          alert := Some(UnexpectedErrorAlert);
          return;
        }
        // A storage error is logged and the delete goes on.
      }

      deleteSent := true;
      match db {
        case Done =>
        case Failed(message) =>
          items := previousItems;
          alert := Some(DbErrorAlertPrefix + message);
        case Threw =>
          items := previousItems;
          alert := Some(UnexpectedErrorAlert);
      }
    }
  }
}
