/**
 * An abstract drop-down row: the sub-views a row layout may contain, the
 * state of each, and the writes the binding code performs on them. A
 * sub-view is present in the row exactly when its id is a key of the row's
 * map, so looking a view up by id (`findViewById`) gives the same view for
 * the same id, and a missing view reads as `null`.
 */
module Views {
  import opened Wrappers
  import opened Recipients

  /** View.VISIBLE, View.INVISIBLE and View.GONE. */
  datatype Visibility = Visible | Invisible | Gone

  /** Drawable resources the row binding refers to. */
  datatype DrawableRes = IcContactPicture

  /** An opaque handle standing for a caller-supplied drawable object. */
  type DrawableRef = nat

  /** What an image view currently displays. */
  datatype ImageSource =
    | NoImage                            // setImageDrawable(null)
    | DecodedBitmap(bytes: seq<bv8>)     // a bitmap decoded from these bytes
    | ImageUri(uri: string)
    | ImageResource(res: DrawableRes)
    | ImageDrawable(drawable: DrawableRef)

  /** The view ids a row layout may contain. */
  datatype ViewId =
    | Title                        // display name
    | Text1                        // destination
    | Text2                        // destination type
    | Icon                         // contact photo
    | Icon1                        // delete button
    | ChipSuggestedContactAdd
    | ChipSuggestedContactDelete
    | ChipsRecipientsIconsLayout
    | ChipRecipientsActionLayout

  /**
   * The observable state of one sub-view. Every sub-view is given every
   * attribute; the binding only writes the ones its view class has.
   */
  datatype ViewState = ViewState(
    visibility: Visibility,
    text: string,
    image: ImageSource,
    alpha: real,
    tag: Option<RecipientEntry>)

  /** One call on a sub-view: setVisibility, setText, setAlpha, setTag or an image setter. */
  datatype Write =
    | SetVisibility(id: ViewId, visibility: Visibility)
    | SetText(id: ViewId, text: string)
    | SetAlpha(id: ViewId, alpha: real)
    | SetTag(id: ViewId, tag: RecipientEntry)
    | SetImage(id: ViewId, image: ImageSource)

  /** The state of a sub-view after it receives `w`. */
  function Effect(s: ViewState, w: Write): ViewState {
    match w
    case SetVisibility(_, v) => s.(visibility := v)
    case SetText(_, t) => s.(text := t)
    case SetAlpha(_, a) => s.(alpha := a)
    case SetTag(_, e) => s.(tag := Some(e))
    case SetImage(_, i) => s.(image := i)
  }

  /** A row after one write; a write to a view the row lacks changes nothing. */
  function Perform(views: map<ViewId, ViewState>, w: Write): (r: map<ViewId, ViewState>)
    ensures r.Keys == views.Keys
    ensures forall id | id in views && id != w.id :: r[id] == views[id]
  {
    if w.id in views then views[w.id := Effect(views[w.id], w)] else views
  }

  /** A row after a sequence of writes, applied in order. */
  function Run(views: map<ViewId, ViewState>, ws: seq<Write>): (r: map<ViewId, ViewState>)
    ensures r.Keys == views.Keys
    decreases |ws|
  {
    if ws == [] then views else Run(Perform(views, ws[0]), ws[1..])
  }

  /** One sub-view after a sequence of writes, of which it sees only those addressed to `id`. */
  function Replay(s: ViewState, id: ViewId, ws: seq<Write>): (r: ViewState)
    ensures (forall k | 0 <= k < |ws| :: ws[k].id != id) ==> r == s
    decreases |ws|
  {
    if ws == [] then s
    else Replay(if ws[0].id == id then Effect(s, ws[0]) else s, id, ws[1..])
  }

  /** Writes to a row act on each sub-view independently: each view sees its own writes, in order. */
  lemma {:induction false} RunAt(views: map<ViewId, ViewState>, ws: seq<Write>, id: ViewId)
    requires id in views
    ensures id in Run(views, ws) && Run(views, ws)[id] == Replay(views[id], id, ws)
    decreases |ws|
  {
    if ws != [] {
      RunAt(Perform(views, ws[0]), ws[1..], id);
    }
  }

  /** Running two sequences of writes one after the other is running their concatenation. */
  lemma {:induction false} RunAppend(views: map<ViewId, ViewState>, a: seq<Write>, b: seq<Write>)
    ensures Run(views, a + b) == Run(Run(views, a), b)
    decreases |a|
  {
    if a == [] {
      assert a + b == b;
    } else {
      assert (a + b)[0] == a[0] && (a + b)[1..] == a[1..] + b;
      RunAppend(Perform(views, a[0]), a[1..], b);
    }
  }

  /**
   * Two batches of writes in succession, as one batch of the concatenated
   * writes: for the row they produce and for the trace that records them.
   */
  lemma RunThen(v0: map<ViewId, ViewState>, t0: seq<Write>, a: seq<Write>,
                v1: map<ViewId, ViewState>, t1: seq<Write>, b: seq<Write>,
                v2: map<ViewId, ViewState>, t2: seq<Write>)
    requires v1 == Run(v0, a) && t1 == t0 + a
    requires v2 == Run(v1, b) && t2 == t1 + b
    ensures v2 == Run(v0, a + b) && t2 == t0 + (a + b)
  {
    RunAppend(v0, a, b);
  }

  /** The per-view counterpart of RunAppend. */
  lemma {:induction false} ReplayAppend(s: ViewState, id: ViewId, a: seq<Write>, b: seq<Write>)
    ensures Replay(s, id, a + b) == Replay(Replay(s, id, a), id, b)
    decreases |a|
  {
    if a == [] {
      assert a + b == b;
    } else {
      assert (a + b)[0] == a[0] && (a + b)[1..] == a[1..] + b;
      ReplayAppend(if a[0].id == id then Effect(s, a[0]) else s, id, a[1..], b);
    }
  }

  /** `ws[k]` sets the visibility of `id`. */
  predicate HidesOrShows(ws: seq<Write>, k: int, id: ViewId)
    requires 0 <= k < |ws|
  {
    ws[k].SetVisibility? && ws[k].id == id
  }

  /**
   * Last write wins: a sub-view ends with the visibility of the last
   * setVisibility call addressed to it, whatever earlier calls set.
   */
  lemma {:induction false} LastVisibilityWriteWins(s: ViewState, id: ViewId, ws: seq<Write>, k: int)
    requires 0 <= k < |ws| && HidesOrShows(ws, k, id)
    requires forall j | k < j < |ws| :: !HidesOrShows(ws, j, id)
    ensures Replay(s, id, ws).visibility == ws[k].visibility
    decreases |ws|
  {
    var next := if ws[0].id == id then Effect(s, ws[0]) else s;
    if k == 0 {
      forall j | 0 <= j < |ws[1..]| ensures !HidesOrShows(ws[1..], j, id) {
        assert !HidesOrShows(ws, j + 1, id);
      }
      KeepsVisibility(next, id, ws[1..]);
    } else {
      forall j | k - 1 < j < |ws[1..]| ensures !HidesOrShows(ws[1..], j, id) {
        assert !HidesOrShows(ws, j + 1, id);
      }
      LastVisibilityWriteWins(next, id, ws[1..], k - 1);
    }
  }

  /** With no setVisibility call addressed to it, a sub-view keeps its visibility. */
  lemma {:induction false} KeepsVisibility(s: ViewState, id: ViewId, ws: seq<Write>)
    requires forall j | 0 <= j < |ws| :: !HidesOrShows(ws, j, id)
    ensures Replay(s, id, ws).visibility == s.visibility
    decreases |ws|
  {
    if ws != [] {
      assert !HidesOrShows(ws, 0, id);
      forall j | 0 <= j < |ws[1..]| ensures !HidesOrShows(ws[1..], j, id) {
        assert !HidesOrShows(ws, j + 1, id);
      }
      KeepsVisibility(if ws[0].id == id then Effect(s, ws[0]) else s, id, ws[1..]);
    }
  }

  /** One write, as a run. */
  lemma RunOne(views: map<ViewId, ViewState>, w: Write)
    ensures Run(views, [w]) == Perform(views, w)
  {
  }

  /** Two writes, as a run. */
  lemma RunTwo(views: map<ViewId, ViewState>, w1: Write, w2: Write)
    ensures Run(views, [w1, w2]) == Perform(Perform(views, w1), w2)
  {
    assert [w1, w2] == [w1] + [w2];
    RunAppend(views, [w1], [w2]);
  }

  /**
   * A drop-down row. `views` is what the toolkit shows; `trace` records
   * every write performed on the row, in order.
   */
  class RowView {
    var views: map<ViewId, ViewState>
    ghost var trace: seq<Write>

    /** A row freshly inflated with the given sub-views. */
    constructor (inflated: map<ViewId, ViewState>)
      ensures views == inflated && trace == []
    {
      views := inflated;
      trace := [];
    }

    method SetVisibility(id: ViewId, visibility: Visibility)
      requires id in views
      modifies this
      ensures trace == old(trace) + [Write.SetVisibility(id, visibility)]
      ensures views == Perform(old(views), Write.SetVisibility(id, visibility))
      ensures views == old(views)[id := old(views)[id].(visibility := visibility)]
    {
      views := views[id := views[id].(visibility := visibility)];
      trace := trace + [Write.SetVisibility(id, visibility)];
    }

    method SetText(id: ViewId, text: string)
      requires id in views
      modifies this
      ensures trace == old(trace) + [Write.SetText(id, text)]
      ensures views == Perform(old(views), Write.SetText(id, text))
      ensures views == old(views)[id := old(views)[id].(text := text)]
    {
      views := views[id := views[id].(text := text)];
      trace := trace + [Write.SetText(id, text)];
    }

    method SetAlpha(id: ViewId, alpha: real)
      requires id in views
      modifies this
      ensures trace == old(trace) + [Write.SetAlpha(id, alpha)]
      ensures views == Perform(old(views), Write.SetAlpha(id, alpha))
      ensures views == old(views)[id := old(views)[id].(alpha := alpha)]
    {
      views := views[id := views[id].(alpha := alpha)];
      trace := trace + [Write.SetAlpha(id, alpha)];
    }

    method SetTag(id: ViewId, tag: RecipientEntry)
      requires id in views
      modifies this
      ensures trace == old(trace) + [Write.SetTag(id, tag)]
      ensures views == Perform(old(views), Write.SetTag(id, tag))
      ensures views == old(views)[id := old(views)[id].(tag := Some(tag))]
    {
      views := views[id := views[id].(tag := Some(tag))];
      trace := trace + [Write.SetTag(id, tag)];
    }

    method SetImage(id: ViewId, image: ImageSource)
      requires id in views
      modifies this
      ensures trace == old(trace) + [Write.SetImage(id, image)]
      ensures views == Perform(old(views), Write.SetImage(id, image))
      ensures views == old(views)[id := old(views)[id].(image := image)]
    {
      views := views[id := views[id].(image := image)];
      trace := trace + [Write.SetImage(id, image)];
    }
  }
}
