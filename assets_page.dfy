/**
 * One institution's site photos: the list of asset records, deletion, the
 * create-or-edit modal whose result is merged into the lists, the image viewer,
 * and the description column cut to 40 characters.
 */
module AssetsPage {
  import opened JsText
  import opened Table
  import opened Collections
  import Actions

  function IdMatches(id: Option<string>): Record -> bool {
    (a: Record) => IdOf(a) == id
  }

  function MergeWith(updated: Record): Record -> Record {
    (a: Record) => Merge(a, updated)
  }

  /**
   * An update's effect on a list: each asset with the selected id gets the returned
   * fields merged over its own; every other asset stays as it was.
   */
  function ApplyUpdate(xs: seq<Record>, selectedId: Option<string>, updated: Record): (r: seq<Record>)
    ensures |r| == |xs|
    ensures forall i :: 0 <= i < |xs| && IdOf(xs[i]) != selectedId ==> r[i] == xs[i]
    ensures forall i :: 0 <= i < |xs| && IdOf(xs[i]) == selectedId ==>
      r[i].Keys == xs[i].Keys + updated.Keys
      && (forall k :: k in updated ==> r[i][k] == updated[k])
      && (forall k :: k in xs[i] && k !in updated ==> r[i][k] == xs[i][k])
  {
    MapWhere(xs, IdMatches(selectedId), MergeWith(updated))
  }

  /**
   * The description column: more than 40 characters shows the first 40 and "...".
   * A record without a description makes the cell's render throw (`None`).
   */
  function DescriptionCell(asset: Record): (r: Option<string>)
    ensures r.None? <==> "description" !in asset
    ensures "description" in asset && |asset["description"]| <= 40 ==> r == Some(asset["description"])
    ensures "description" in asset && |asset["description"]| > 40 ==> r == Some(asset["description"][..40] + "...")
  {
    if "description" in asset then Some(Truncate40(asset["description"])) else None
  }

  class Page {
    var assets: seq<Record>
    var filteredAssets: seq<Record>
    var loading: bool
    var modalVisible: bool
    var imageModalVisible: bool
    var selectedAsset: Option<Record>
    /** The record whose image is being viewed; `None` stands for the empty text the page resets it to. */
    var viewImage: Option<Record>

    constructor ()
      ensures assets == [] && filteredAssets == [] && !loading
      ensures !modalVisible && !imageModalVisible && selectedAsset == None && viewImage == None
    {
      assets, filteredAssets := [], [];
      loading := false;
      modalVisible, imageModalVisible := false, false;
      selectedAsset, viewImage := None, None;
    }

    /** The fetch: nothing is requested without a token; `None` is a failed request. */
    method FetchData(token: Option<string>, result: Option<seq<Record>>) returns (requested: bool)
      modifies this
      ensures requested <==> Truthy(token)
      ensures requested && result.Some? ==> assets == result.value && filteredAssets == result.value
      ensures !(requested && result.Some?) ==> assets == old(assets) && filteredAssets == old(filteredAssets)
      ensures loading == (old(loading) && !requested)
      ensures modalVisible == old(modalVisible) && imageModalVisible == old(imageModalVisible)
      ensures selectedAsset == old(selectedAsset) && viewImage == old(viewImage)
    {
      if !Truthy(token) {
        return false;
      }
      loading := true;
      if result.Some? {
        assets := result.value;
        filteredAssets := result.value;
      }
      loading := false;
      return true;
    }

    /** Clicking an image opens the viewer on that record. */
    method HandleView(record: Record)
      modifies this
      ensures viewImage == Some(record) && imageModalVisible
      ensures assets == old(assets) && filteredAssets == old(filteredAssets) && loading == old(loading)
      ensures modalVisible == old(modalVisible) && selectedAsset == old(selectedAsset)
    {
      viewImage := Some(record);
      imageModalVisible := true;
    }

    /** "Edit" opens the modal with the record selected. */
    method HandleEdit(asset: Record)
      modifies this
      ensures selectedAsset == Some(asset) && modalVisible
      ensures assets == old(assets) && filteredAssets == old(filteredAssets) && loading == old(loading)
      ensures imageModalVisible == old(imageModalVisible) && viewImage == old(viewImage)
    {
      selectedAsset := Some(asset);
      modalVisible := true;
    }

    /**
     * Delete: the page calls the delete helper with the asset's id alone, leaving the
     * session token out. When the server delete went through (`ok`), every asset with
     * that id leaves both lists and the rest keep their order; otherwise nothing changes.
     */
    method HandleDelete(assetId: Option<string>, token: Option<string>, ok: bool) returns (call: Actions.DeleteCall)
      modifies this
      ensures call == Actions.DeleteAsWritten(assetId, token)
      ensures ok ==> assets == RemoveById(old(assets), assetId) && filteredAssets == RemoveById(old(filteredAssets), assetId)
      ensures !ok ==> assets == old(assets) && filteredAssets == old(filteredAssets)
      ensures !loading
      ensures modalVisible == old(modalVisible) && imageModalVisible == old(imageModalVisible)
      ensures selectedAsset == old(selectedAsset) && viewImage == old(viewImage)
    {
      loading := true;
      call := Actions.DeleteAsWritten(assetId, token);
      if ok {
        assets := RemoveById(assets, assetId);
        filteredAssets := RemoveById(filteredAssets, assetId);
      }
      loading := false;
    }

    /** Closing the edit modal hides it and clears the selection. */
    method HandleModalClose()
      modifies this
      ensures !modalVisible && selectedAsset == None
      ensures assets == old(assets) && filteredAssets == old(filteredAssets) && loading == old(loading)
      ensures imageModalVisible == old(imageModalVisible) && viewImage == old(viewImage)
    {
      modalVisible := false;
      selectedAsset := None;
    }

    /** Closing the viewer hides it and clears the viewed record. */
    method HandleImageModalClose()
      modifies this
      ensures !imageModalVisible && viewImage == None
      ensures assets == old(assets) && filteredAssets == old(filteredAssets) && loading == old(loading)
      ensures modalVisible == old(modalVisible) && selectedAsset == old(selectedAsset)
    {
      imageModalVisible := false;
      viewImage := None;
    }

    /**
     * Save from the modal. `reply` is the record the server returned, or `None` when
     * the request threw. With an asset selected, the reply is merged into every
     * asset with the selected id in both lists; without one, it is appended to both.
     * The modal hides only after a save that went through; the selection stays.
     */
    method OnSubmit(reply: Option<Record>)
      modifies this
      ensures reply.Some? && old(selectedAsset).Some? ==>
        assets == ApplyUpdate(old(assets), IdOf(old(selectedAsset).value), reply.value)
        && filteredAssets == ApplyUpdate(old(filteredAssets), IdOf(old(selectedAsset).value), reply.value)
      ensures reply.Some? && old(selectedAsset).None? ==>
        assets == old(assets) + [reply.value] && filteredAssets == old(filteredAssets) + [reply.value]
      ensures reply.None? ==> assets == old(assets) && filteredAssets == old(filteredAssets)
      ensures modalVisible == (old(modalVisible) && reply.None?)
      ensures !loading
      ensures selectedAsset == old(selectedAsset) && imageModalVisible == old(imageModalVisible) && viewImage == old(viewImage)
    {
      loading := true;
      if reply.Some? {
        if selectedAsset.Some? {
          var id := IdOf(selectedAsset.value);
          assets := ApplyUpdate(assets, id, reply.value);
          filteredAssets := ApplyUpdate(filteredAssets, id, reply.value);
        } else {
          assets := assets + [reply.value];
          filteredAssets := filteredAssets + [reply.value];
        }
        modalVisible := false;
      }
      loading := false;
    }
  }

  /** An update whose reply carries nothing new leaves the list as it was. */
  lemma {:induction false} EmptyReplyChangesNothing(xs: seq<Record>, selectedId: Option<string>)
    ensures ApplyUpdate(xs, selectedId, map[]) == xs
  {
    var r := ApplyUpdate(xs, selectedId, map[]);
    forall i | 0 <= i < |xs|
      ensures r[i] == xs[i]
    {
      if IdOf(xs[i]) == selectedId {
        assert r[i].Keys == xs[i].Keys;
      }
    }
  }

  /** Deleting the id just updated removes exactly the records an update would have touched. */
  lemma {:induction false} DeleteAfterUpdate(xs: seq<Record>, id: Option<string>, updated: Record)
    requires "id" !in updated
    ensures RemoveById(ApplyUpdate(xs, id, updated), id) == RemoveById(xs, id)
    decreases |xs|
  {
    if xs != [] {
      var r := ApplyUpdate(xs, id, updated);
      assert r[1..] == ApplyUpdate(xs[1..], id, updated);
      DeleteAfterUpdate(xs[1..], id, updated);
      if IdOf(xs[0]) == id {
        assert IdOf(r[0]) == id;
      }
    }
  }
}
