/**
 * The video-upload screen of src/screens/FeatureOneScreen.tsx: a grid of
 * upload cards and a modal dialog. Two state fields, `isModalVisible` and
 * `selectedCard`, are changed by the card press, by the dialog's Cancel
 * button and request-close, and by the image picker's completion callback.
 * The picker itself (`launchImageLibrary`) is outside the model; its callback
 * is the method `OnPickerResponse`, called with the response it receives.
 */
module VideoUpload {
  import opened Wrappers

  datatype VideoCard = VideoCard(id: string, title: string, description: string, icon: string)

  /** The `videoCards` table, in display order. */
  const VideoCards: seq<VideoCard> := [
    VideoCard("1", "Upload Video 1", "Click to upload your first video", "videocam"),
    VideoCard("2", "Upload Video 2", "Click to upload your second video", "videocam"),
    VideoCard("3", "Upload Video 3", "Click to upload your third video", "videocam"),
    VideoCard("4", "Upload Video 4", "Click to upload your fourth video", "videocam")
  ]

  /** A picked media file; only its identity matters here. */
  datatype Asset = Asset(uri: string)

  /** The picker's error codes; each is a non-empty string, so truthy. */
  datatype ErrorCode = CameraUnavailable | Permission | Others

  /** The fields of the picker's response that the callback tests. */
  datatype PickerResponse = PickerResponse(
    didCancel: bool,
    errorCode: Option<ErrorCode>,
    assets: Option<seq<Asset>>)

  /** Which branch of the callback's `if` chain a response takes. */
  datatype PickerOutcome = Cancelled | Failed(code: ErrorCode) | Chosen(video: Asset) | NothingChosen

  /**
   * The callback's case analysis: cancellation is tested first, then an
   * error, then a first asset; a response with none of these falls through.
   */
  function ClassifyResponse(resp: PickerResponse): (o: PickerOutcome)
    ensures o.Cancelled? <==> resp.didCancel
    ensures o.Failed? <==> !resp.didCancel && resp.errorCode.Some?
    ensures o.Chosen? <==> !resp.didCancel && resp.errorCode.None? && resp.assets.Some? && |resp.assets.value| > 0
    ensures o.Chosen? ==> o.video == resp.assets.value[0]
  {
    if resp.didCancel then Cancelled
    else if resp.errorCode.Some? then Failed(resp.errorCode.value)
    else if resp.assets.Some? && |resp.assets.value| > 0 then Chosen(resp.assets.value[0])
    else NothingChosen
  }

  /** Four cards whose ids, the list keys, are "1" to "4" and pairwise distinct. */
  lemma VideoCardIdsDistinct()
    ensures |VideoCards| == 4
    ensures forall i :: 0 <= i < |VideoCards| ==> VideoCards[i].id == ["1", "2", "3", "4"][i]
    ensures forall i, j :: 0 <= i < j < |VideoCards| ==> VideoCards[i].id != VideoCards[j].id
  {
  }

  /** The component's state and its handlers. */
  class FeatureOneScreen {
    var isModalVisible: bool
    var selectedCard: Option<VideoCard>

    /** Whenever the dialog shows, it has a card to name in its heading. */
    ghost predicate Valid()
      reads this
    {
      isModalVisible ==> selectedCard.Some?
    }

    /** `useState(false)` and `useState<VideoCard | null>(null)`. */
    constructor ()
      ensures Valid()
      ensures !isModalVisible && selectedCard == None
    {
      isModalVisible := false;
      selectedCard := None;
    }

    /** `handleCardPress(card)`: select the card and show the dialog. */
    method HandleCardPress(card: VideoCard)
      requires Valid()
      modifies this
      ensures Valid()
      ensures selectedCard == Some(card) && isModalVisible
    {
      selectedCard := Some(card);
      isModalVisible := true;
    }

    /** The Cancel button and the dialog's `onRequestClose`: hide the dialog, keep the selection. */
    method CloseModal()
      requires Valid()
      modifies this
      ensures Valid()
      ensures !isModalVisible && selectedCard == old(selectedCard)
    {
      isModalVisible := false;
    }

    /**
     * The picker's completion callback. Whatever the response, the dialog is
     * hidden afterwards and the selection is kept; `outcome` is the branch taken.
     */
    method OnPickerResponse(resp: PickerResponse) returns (outcome: PickerOutcome)
      requires Valid()
      modifies this
      ensures Valid()
      ensures outcome == ClassifyResponse(resp)
      ensures !isModalVisible && selectedCard == old(selectedCard)
    {
      outcome := ClassifyResponse(resp);
      isModalVisible := false;
    }

    /** The dialog's heading, `Upload Video for {selectedCard?.title}`; it names the selected card whenever the dialog shows. */
    function ModalHeading(): (h: string)
      reads this
      requires Valid()
      ensures isModalVisible ==> h == "Upload Video for " + selectedCard.value.title
    {
      "Upload Video for " + if selectedCard.Some? then selectedCard.value.title else ""
    }
  }
}
