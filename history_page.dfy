/** The history page of the web client: the list of past detections loaded
    from the store, deletion by id, and the label that says where a
    recording came from. The store's queries are events carrying their
    outcome. */
module HistoryPage {
  import opened Wrappers

  datatype Detection = Detection(className: string, confidence: real, bbox: seq<real>)

  /** One row of the detection_history table. */
  datatype Record = Record(id: string, videoUrl: string, detections: seq<Detection>,
                           transcription: string, language: string, createdAt: string)

  /** How the load query ended: rows (possibly a null data field), or an error. */
  datatype FetchReply = Rows(data: Option<seq<Record>>) | FetchFailed

  const LoadError := "Failed to load detection history"
  const DeleteError := "Failed to delete history item"
  const DeletedNotice := "History item deleted"
  const CameraStream := "camera-stream"
  const LiveCamera := "Live Camera"
  const UploadedVideo := "Uploaded Video"

  /** The "Source:" line of a history card. */
  function SourceLabel(videoUrl: string): (s: string)
    ensures s == LiveCamera <==> videoUrl == CameraStream
    ensures s == UploadedVideo <==> videoUrl != CameraStream
  {
    if videoUrl == CameraStream then LiveCamera else UploadedVideo
  }

  /** `history.filter(item => item.id !== id)`. */
  function Without(history: seq<Record>, id: string): (r: seq<Record>)
    ensures |r| <= |history|
    ensures forall k :: 0 <= k < |r| ==> r[k].id != id
  {
    if history == [] then []
    else
      var rest := Without(history[1..], id);
      assert history == [history[0]] + history[1..];
      if history[0].id != id then [history[0]] + rest else rest
  }

  /** Filtering distributes over concatenation, so the kept items stay in
      their original relative order. */
  lemma {:induction false} WithoutAppend(a: seq<Record>, b: seq<Record>, id: string)
    ensures Without(a + b, id) == Without(a, id) + Without(b, id)
  {
    if a == [] {
      assert a + b == b;
    } else {
      var ab := a + b;
      assert ab[0] == a[0] && ab[1..] == a[1..] + b;
      WithoutAppend(a[1..], b, id);
      var keep := if a[0].id != id then [a[0]] else [];
      assert Without(ab, id) == keep + Without(a[1..] + b, id);
      assert Without(a, id) == keep + Without(a[1..], id);
    }
  }

  /** The filter drops every copy of an item with that id and keeps every
      copy of every other item. */
  lemma {:induction false} WithoutCounts(history: seq<Record>, id: string)
    ensures forall x: Record :: x.id != id ==> multiset(Without(history, id))[x] == multiset(history)[x]
    ensures forall x: Record :: x.id == id ==> multiset(Without(history, id))[x] == 0
  {
    if history != [] {
      WithoutCounts(history[1..], id);
      assert history == [history[0]] + history[1..];
      var keep := if history[0].id != id then [history[0]] else [];
      assert Without(history, id) == keep + Without(history[1..], id);
    }
  }

  /** Deleting an id that no item carries leaves the list as it was. */
  lemma {:induction false} WithoutAbsent(history: seq<Record>, id: string)
    requires forall k :: 0 <= k < |history| ==> history[k].id != id
    ensures Without(history, id) == history
  {
    if history != [] {
      WithoutAbsent(history[1..], id);
      assert history == [history[0]] + history[1..];
    }
  }

  /** Deleting twice is deleting once. */
  lemma {:induction false} WithoutIdempotent(history: seq<Record>, id: string)
    ensures Without(Without(history, id), id) == Without(history, id)
  {
    WithoutAbsent(Without(history, id), id);
  }

  /** A delete the user clicked that has not settled yet: the id, and the
      list as the clicked render held it, which is the list the handler
      filters when the store reports success. */
  datatype PendingDelete = PendingDelete(id: string, captured: seq<Record>)

  class Page {
    var history: seq<Record>
    var loading: bool
    var error: string
    /** Utterances handed to speak(), oldest first. */
    var spoken: seq<string>
    /** Delete queries in flight, in the order they were clicked. */
    var pendingDeletes: seq<PendingDelete>

    constructor ()
      ensures history == [] && loading && error == "" && spoken == [] && pendingDeletes == []
    {
      history, loading, error, spoken, pendingDeletes := [], true, "", [], [];
    }

    /** fetchHistory is called: the spinner shows until the query settles. */
    method FetchHistory()
      modifies this
      ensures loading
      ensures history == old(history) && error == old(error) && spoken == old(spoken)
      ensures pendingDeletes == old(pendingDeletes)
    {
      loading := true;
    }

    /** The load query settled: its rows, or [] for no data, replace the
        list; an error keeps the list and sets the message. Either way the
        spinner stops, and an earlier message is not cleared. */
    method FetchSettled(reply: FetchReply)
      modifies this
      ensures !loading
      ensures reply.Rows? ==> history == (if reply.data.Some? then reply.data.value else []) && error == old(error)
      ensures reply.FetchFailed? ==> history == old(history) && error == LoadError
      ensures spoken == old(spoken) && pendingDeletes == old(pendingDeletes)
    {
      match reply {
        case Rows(data) =>
          history := if data.Some? then data.value else [];
        case FetchFailed =>
          error := LoadError;
      }
      loading := false;
    }

    /** The delete button of the item with `id` is clicked: deleteHistory
        starts its query, holding the list of the current render. */
    method DeleteHistory(id: string)
      modifies this
      ensures pendingDeletes == old(pendingDeletes) + [PendingDelete(id, old(history))]
      ensures history == old(history) && error == old(error) && spoken == old(spoken) && loading == old(loading)
    {
      pendingDeletes := pendingDeletes + [PendingDelete(id, history)];
    }

    /** The delete query `i` (in click order) settled, successfully when
        `ok`: on success the held list, filtered, replaces the history and
        the deletion is spoken; on failure the history stays and the
        message is set. */
    method DeleteSettled(i: nat, ok: bool)
      requires i < |pendingDeletes|
      modifies this
      ensures pendingDeletes == old(pendingDeletes[..i] + pendingDeletes[i + 1..])
      ensures ok ==> history == Without(old(pendingDeletes[i].captured), old(pendingDeletes[i].id))
      ensures ok ==> spoken == old(spoken) + [DeletedNotice] && error == old(error)
      ensures !ok ==> history == old(history) && error == DeleteError && spoken == old(spoken)
      ensures loading == old(loading)
    {
      var d := pendingDeletes[i];
      pendingDeletes := pendingDeletes[..i] + pendingDeletes[i + 1..];
      if ok {
        history := Without(d.captured, d.id);
        spoken := spoken + [DeletedNotice];
      } else {
        error := DeleteError;
      }
    }
  }

  /** Two deletes clicked on the same render, both successful: each
      handler filters the list that render held, so the one that settles
      last writes back a list in which the other item is present again. */
  method OverlappingDeletes(a: Record, b: Record) returns (p: Page)
    requires a.id != b.id
    ensures p.history == [a] && p.pendingDeletes == []
  {
    p := new Page();
    p.FetchSettled(Rows(Some([a, b])));
    p.DeleteHistory(a.id);
    p.DeleteHistory(b.id);
    assert Without([a, b], a.id) == [b] by {
      assert [a, b][1..] == [b];
      assert [b][1..] == [];
    }
    p.DeleteSettled(0, true);
    assert p.history == [b];
    assert Without([a, b], b.id) == [a] by {
      assert [a, b][1..] == [b];
      assert [b][1..] == [];
    }
    p.DeleteSettled(0, true);
  }
}
