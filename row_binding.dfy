/**
 * What binding a recipient entry into a row of the recipient drop-down
 * list decides: which name, destination and type label the row shows,
 * whether and which photo it shows, whether the suggestion buttons appear;
 * the fixed sequence of writes that puts those decisions into the row's
 * sub-views; and, sub-view by sub-view, what the row shows afterwards.
 */
module RowBinding {
  import opened Wrappers
  import opened Recipients
  import opened Views

  /** The type of adapter that is requesting a row. */
  datatype AdapterType = BaseRecipient | RecipientAlternates | SingleRecipient

  /** Ways a bind fails: the tokenizer is handed a null destination, or finds no address in it. */
  datatype BindError = NullDestination | NoAddressToken

  // Ids of the sub-views the row holder looks up.
  const DisplayNameResId: ViewId := Title
  const DestinationResId: ViewId := Text1
  const DestinationTypeResId: ViewId := Text2
  const PhotoResId: ViewId := Icon
  const DeleteResId: ViewId := Icon1
  const DefaultPhotoResId: DrawableRes := IcContactPicture

  /**
   * The sub-views of a row, each looked up by its id; a missing one is None.
   * The top divider is looked up with the icons layout's id, so the two
   * always denote the same sub-view.
   */
  datatype ViewHolder = ViewHolder(
    displayNameView: Option<ViewId>,
    destinationView: Option<ViewId>,
    destinationTypeView: Option<ViewId>,
    imageView: Option<ViewId>,
    deleteView: Option<ViewId>,
    topDivider: Option<ViewId>,
    addSuggestionView: Option<ViewId>,
    deleteSuggestionView: Option<ViewId>,
    iconsView: Option<ViewId>,
    actionView: Option<ViewId>)

  /** The view with id `id` of a row whose sub-views have the ids in `present`. */
  function FindViewById(present: set<ViewId>, id: ViewId): (found: Option<ViewId>)
    ensures found.Some? <==> id in present
    ensures found.Some? ==> found.value == id
  {
    if id in present then Some(id) else None
  }

  function NewViewHolder(present: set<ViewId>): (holder: ViewHolder)
    ensures holder.topDivider == holder.iconsView
    ensures holder.imageView.Some? <==> Icon in present
  {
    ViewHolder(
      FindViewById(present, DisplayNameResId),
      FindViewById(present, DestinationResId),
      FindViewById(present, DestinationTypeResId),
      FindViewById(present, PhotoResId),
      FindViewById(present, DeleteResId),
      FindViewById(present, ChipsRecipientsIconsLayout),
      FindViewById(present, ChipSuggestedContactAdd),
      FindViewById(present, ChipSuggestedContactDelete),
      FindViewById(present, ChipsRecipientsIconsLayout),
      FindViewById(present, ChipRecipientsActionLayout))
  }

  /** What a row shows: null text hides its line; `showImage` asks for the photo. */
  datatype Fields = Fields(
    displayName: Option<string>,
    destination: Option<string>,
    destinationType: Option<string>,
    showImage: bool)

  /** The display name is empty or the same as the destination, so the destination stands in for it. */
  predicate NameFallsBack(entry: RecipientEntry) {
    entry.displayName.None? || entry.displayName == Some("") || entry.displayName == entry.destination
  }

  /**
   * The fields a row of the given adapter type shows for an entry at a
   * list position. `typeLabel` is the entry's localized destination-type
   * label; `addresses` are the addresses the RFC 822 tokenizer finds in the
   * entry's destination.
   */
  function Presentation(entry: RecipientEntry, adapterType: AdapterType, position: int,
                        typeLabel: string, addresses: seq<string>): (r: Result<Fields, BindError>)
    // Only a single-recipient row can fail, when the tokenizer has no address to give.
    ensures r.Err? <==> adapterType == SingleRecipient && (entry.destination.None? || addresses == [])
    // A hidden photo always goes with a hidden name.
    ensures r.Ok? && !r.value.showImage ==> r.value.displayName.None?
    // The name line shows the entry's name, or its destination standing in for it.
    ensures r.Ok? && r.value.displayName.Some? ==>
      r.value.displayName == entry.displayName || r.value.displayName == entry.destination
    // The destination line shows the destination, or for a single recipient its first address.
    ensures r.Ok? && r.value.destination.Some? ==>
      r.value.destination == if adapterType == SingleRecipient then Some(addresses[0]) else entry.destination
    // The type line shows the label, except on a single-recipient row.
    ensures r.Ok? ==>
      r.value.destinationType == if adapterType == SingleRecipient then None else Some(typeLabel)
    // The base list never repeats one text on the name and destination lines.
    ensures r.Ok? && adapterType == BaseRecipient ==>
      r.value.displayName.None? || r.value.displayName != r.value.destination
  {
    match adapterType
    case BaseRecipient =>
      var name := if NameFallsBack(entry) then entry.destination else entry.displayName;
      var destination := if NameFallsBack(entry) && entry.isFirstLevel then None else entry.destination;
      if entry.isFirstLevel then Ok(Fields(name, destination, Some(typeLabel), true))
      else Ok(Fields(None, destination, Some(typeLabel), false))
    case RecipientAlternates =>
      if position != 0 then Ok(Fields(None, entry.destination, Some(typeLabel), false))
      else Ok(Fields(entry.displayName, entry.destination, Some(typeLabel), true))
    case SingleRecipient =>
      if entry.destination.None? then Err(NullDestination)
      else if addresses == [] then Err(NoAddressToken)
      else Ok(Fields(entry.displayName, Some(addresses[0]), None, true))
  }

  /** The photo a shown image view displays for an entry. */
  function PhotoSource(entry: RecipientEntry, adapterType: AdapterType): (src: ImageSource)
    ensures src.DecodedBitmap? <==>
      adapterType == BaseRecipient && entry.photoBytes.Some? && |entry.photoBytes.value| > 0
    ensures src.DecodedBitmap? ==> entry.photoBytes == Some(src.bytes)
    ensures src.ImageUri? <==> adapterType == RecipientAlternates && entry.photoThumbnailUri.Some?
    ensures src.ImageUri? ==> entry.photoThumbnailUri == Some(src.uri)
    ensures src.DecodedBitmap? || src.ImageUri? || src == ImageResource(DefaultPhotoResId)
  {
    match adapterType
    case BaseRecipient =>
      if entry.photoBytes.Some? && |entry.photoBytes.value| > 0 then DecodedBitmap(entry.photoBytes.value)
      else ImageResource(DefaultPhotoResId)
    case RecipientAlternates =>
      if entry.photoThumbnailUri.Some? then ImageUri(entry.photoThumbnailUri.value)
      else ImageResource(DefaultPhotoResId)
    case SingleRecipient =>
      ImageResource(DefaultPhotoResId)
  }

  // ---------------------------------------------------------------------
  // The writes a bind performs, in order
  // ---------------------------------------------------------------------

  /** Base list only: the top divider is shown on the first row and hidden below it. */
  function DividerScript(holder: ViewHolder, adapterType: AdapterType, position: int): seq<Write> {
    if adapterType == BaseRecipient && holder.topDivider.Some? then
      [SetVisibility(holder.topDivider.value, if position == 0 then Visible else Gone)]
    else []
  }

  function TextScript(text: Option<string>, view: Option<ViewId>): seq<Write> {
    match view
    case None => []
    case Some(id) =>
      match text
      case Some(t) => [SetText(id, t), SetVisibility(id, Visible)]
      case None => [SetVisibility(id, Gone)]
  }

  function IconScript(showImage: bool, entry: RecipientEntry, view: Option<ViewId>,
                      adapterType: AdapterType): seq<Write> {
    match view
    case None => []
    case Some(id) =>
      if showImage then [SetImage(id, PhotoSource(entry, adapterType)), SetVisibility(id, Visible)]
      else [SetVisibility(id, Gone)]
  }

  function Tagged(view: Option<ViewId>, entry: RecipientEntry): seq<Write> {
    match view
    case None => []
    case Some(id) => [SetTag(id, entry), SetVisibility(id, Visible)]
  }

  function Hidden(view: Option<ViewId>): seq<Write> {
    match view
    case None => []
    case Some(id) => [SetVisibility(id, Gone)]
  }

  /** Suggestion buttons and photo: a suggested entry gets the buttons, any other entry the photo. */
  function SuggestionScript(holder: ViewHolder, entry: RecipientEntry, adapterType: AdapterType,
                            showImage: bool): seq<Write>
    requires holder.imageView.Some?
  {
    if IsSuggested(entry) then
      Tagged(holder.addSuggestionView, entry) + Tagged(holder.deleteSuggestionView, entry)
      + [SetVisibility(holder.imageView.value, Gone)]
    else
      IconScript(showImage, entry, holder.imageView, adapterType)
      + Hidden(holder.addSuggestionView) + Hidden(holder.deleteSuggestionView)
      + [SetVisibility(holder.imageView.value, Visible)]
  }

  function DeleteScript(drawable: Option<DrawableRef>, view: Option<ViewId>): seq<Write> {
    match view
    case None => []
    case Some(id) =>
      match drawable
      case None => [SetVisibility(id, Gone), SetImage(id, NoImage)]
      case Some(d) => [SetImage(id, ImageDrawable(d))]
  }

  function Restored(view: Option<ViewId>, visibility: Visibility): seq<Write> {
    match view
    case None => []
    case Some(id) => [SetAlpha(id, 1.0), SetVisibility(id, visibility)]
  }

  /** Undoing a suggestion animation: the icons layout is shown again and the action layout hidden. */
  function RevertScript(holder: ViewHolder): seq<Write> {
    Restored(holder.iconsView, Visible) + Restored(holder.actionView, Gone)
  }

  /** The writes that follow the divider: the three text lines, suggestion buttons or photo, delete button, reset. */
  function FieldsScript(holder: ViewHolder, entry: RecipientEntry, adapterType: AdapterType, fields: Fields,
                        deleteDrawable: Option<DrawableRef>): seq<Write>
    requires holder.imageView.Some?
  {
    TextScript(fields.displayName, holder.displayNameView)
    + TextScript(fields.destination, holder.destinationView)
    + TextScript(fields.destinationType, holder.destinationTypeView)
    + SuggestionScript(holder, entry, adapterType, fields.showImage)
    + DeleteScript(deleteDrawable, holder.deleteView)
    + RevertScript(holder)
  }

  /** Every write of a successful bind, in the order the binding makes them. */
  function BindScript(holder: ViewHolder, entry: RecipientEntry, adapterType: AdapterType, position: int,
                      fields: Fields, deleteDrawable: Option<DrawableRef>): seq<Write>
    requires holder.imageView.Some?
  {
    DividerScript(holder, adapterType, position) + FieldsScript(holder, entry, adapterType, fields, deleteDrawable)
  }

  // ---------------------------------------------------------------------
  // What a bound row ends up showing, sub-view by sub-view
  // ---------------------------------------------------------------------

  /** A text line after binding: the text shown, or the line hidden with its old text kept. */
  function BoundText(s: ViewState, text: Option<string>): ViewState {
    match text
    case Some(t) => s.(text := t, visibility := Visible)
    case None => s.(visibility := Gone)
  }

  /**
   * A sub-view after a successful bind. The photo of a non-suggested entry
   * is shown even when `showImage` is false, with whatever image it had;
   * the icons layout, which is also the top divider, is shown on every row.
   */
  function BoundView(id: ViewId, s: ViewState, entry: RecipientEntry, adapterType: AdapterType,
                     fields: Fields, deleteDrawable: Option<DrawableRef>): ViewState {
    match id
    case Title => BoundText(s, fields.displayName)
    case Text1 => BoundText(s, fields.destination)
    case Text2 => BoundText(s, fields.destinationType)
    case Icon =>
      if IsSuggested(entry) then s.(visibility := Gone)
      else if fields.showImage then s.(image := PhotoSource(entry, adapterType), visibility := Visible)
      else s.(visibility := Visible)
    case Icon1 =>
      if deleteDrawable.None? then s.(visibility := Gone, image := NoImage)
      else s.(image := ImageDrawable(deleteDrawable.value))
    case ChipSuggestedContactAdd =>
      if IsSuggested(entry) then s.(tag := Some(entry), visibility := Visible) else s.(visibility := Gone)
    case ChipSuggestedContactDelete =>
      if IsSuggested(entry) then s.(tag := Some(entry), visibility := Visible) else s.(visibility := Gone)
    case ChipsRecipientsIconsLayout => s.(alpha := 1.0, visibility := Visible)
    case ChipRecipientsActionLayout => s.(alpha := 1.0, visibility := Gone)
  }

  function BoundState(before: map<ViewId, ViewState>, entry: RecipientEntry, adapterType: AdapterType,
                      fields: Fields, deleteDrawable: Option<DrawableRef>): (after: map<ViewId, ViewState>)
    ensures after.Keys == before.Keys
  {
    map id | id in before :: BoundView(id, before[id], entry, adapterType, fields, deleteDrawable)
  }
}

/** Each segment of the bind script, seen from one sub-view, and the whole script against BoundView. */
module RowBindingProofs {
  import opened Wrappers
  import opened Recipients
  import opened Views
  import opened RowBinding

  lemma ReplayOne(s: ViewState, id: ViewId, w: Write)
    ensures Replay(s, id, [w]) == if w.id == id then Effect(s, w) else s
  {
  }

  lemma ReplayTwo(s: ViewState, id: ViewId, w1: Write, w2: Write)
    ensures Replay(s, id, [w1, w2]) == Replay(Replay(s, id, [w1]), id, [w2])
  {
    assert [w1, w2] == [w1] + [w2];
    ReplayAppend(s, id, [w1], [w2]);
  }

  lemma ReplayText(s: ViewState, id: ViewId, text: Option<string>, view: Option<ViewId>)
    ensures Replay(s, id, TextScript(text, view)) == if view == Some(id) then BoundText(s, text) else s
  {
    if view.Some? && text.Some? {
      ReplayTwo(s, id, SetText(view.value, text.value), SetVisibility(view.value, Visible));
    }
  }

  lemma ReplayDivider(s: ViewState, id: ViewId, holder: ViewHolder, adapterType: AdapterType, position: int)
    ensures Replay(s, id, DividerScript(holder, adapterType, position)) ==
      if adapterType == BaseRecipient && holder.topDivider == Some(id)
      then s.(visibility := if position == 0 then Visible else Gone)
      else s
  {
  }

  lemma ReplayTagged(s: ViewState, id: ViewId, view: Option<ViewId>, entry: RecipientEntry)
    ensures Replay(s, id, Tagged(view, entry)) ==
      if view == Some(id) then s.(tag := Some(entry), visibility := Visible) else s
  {
    if view.Some? {
      ReplayTwo(s, id, SetTag(view.value, entry), SetVisibility(view.value, Visible));
    }
  }

  lemma ReplayIcon(s: ViewState, id: ViewId, showImage: bool, entry: RecipientEntry, view: Option<ViewId>,
                   adapterType: AdapterType)
    ensures Replay(s, id, IconScript(showImage, entry, view, adapterType)) ==
      if view != Some(id) then s
      else if showImage then s.(image := PhotoSource(entry, adapterType), visibility := Visible)
      else s.(visibility := Gone)
  {
    if view.Some? && showImage {
      ReplayTwo(s, id, SetImage(view.value, PhotoSource(entry, adapterType)), SetVisibility(view.value, Visible));
    }
  }

  lemma ReplayHidden(s: ViewState, id: ViewId, view: Option<ViewId>)
    ensures Replay(s, id, Hidden(view)) == if view == Some(id) then s.(visibility := Gone) else s
  {
  }

  lemma ReplaySuggestion(s: ViewState, id: ViewId, present: set<ViewId>, entry: RecipientEntry,
                         adapterType: AdapterType, showImage: bool)
    requires id in present && Icon in present
    ensures Replay(s, id, SuggestionScript(NewViewHolder(present), entry, adapterType, showImage)) ==
      if id == Icon then
        (if IsSuggested(entry) then s.(visibility := Gone)
         else if showImage then s.(image := PhotoSource(entry, adapterType), visibility := Visible)
         else s.(visibility := Visible))
      else if id == ChipSuggestedContactAdd || id == ChipSuggestedContactDelete then
        (if IsSuggested(entry) then s.(tag := Some(entry), visibility := Visible) else s.(visibility := Gone))
      else s
  {
    if IsSuggested(entry) {
      ReplaySuggested(s, id, present, entry, adapterType, showImage);
    } else {
      ReplayNotSuggested(s, id, present, entry, adapterType, showImage);
    }
  }

  lemma ReplaySuggested(s: ViewState, id: ViewId, present: set<ViewId>, entry: RecipientEntry,
                        adapterType: AdapterType, showImage: bool)
    requires id in present && Icon in present && IsSuggested(entry)
    ensures Replay(s, id, SuggestionScript(NewViewHolder(present), entry, adapterType, showImage)) ==
      if id == Icon then s.(visibility := Gone)
      else if id == ChipSuggestedContactAdd || id == ChipSuggestedContactDelete then
        s.(tag := Some(entry), visibility := Visible)
      else s
  {
    var h := NewViewHolder(present);
    var a, b, c := Tagged(h.addSuggestionView, entry), Tagged(h.deleteSuggestionView, entry),
      [SetVisibility(Icon, Gone)];
    assert SuggestionScript(h, entry, adapterType, showImage) == a + b + c;
    ReplayAppend(s, id, a + b, c);
    ReplayAppend(s, id, a, b);
    ReplayTagged(s, id, h.addSuggestionView, entry);
    var s1 := Replay(s, id, a);
    ReplayTagged(s1, id, h.deleteSuggestionView, entry);
    ReplayOne(Replay(s1, id, b), id, SetVisibility(Icon, Gone));
  }

  lemma ReplayNotSuggested(s: ViewState, id: ViewId, present: set<ViewId>, entry: RecipientEntry,
                           adapterType: AdapterType, showImage: bool)
    requires id in present && Icon in present && !IsSuggested(entry)
    ensures Replay(s, id, SuggestionScript(NewViewHolder(present), entry, adapterType, showImage)) ==
      if id == Icon then
        (if showImage then s.(image := PhotoSource(entry, adapterType), visibility := Visible)
         else s.(visibility := Visible))
      else if id == ChipSuggestedContactAdd || id == ChipSuggestedContactDelete then s.(visibility := Gone)
      else s
  {
    var h := NewViewHolder(present);
    var i, a, b, c := IconScript(showImage, entry, h.imageView, adapterType), Hidden(h.addSuggestionView),
      Hidden(h.deleteSuggestionView), [SetVisibility(Icon, Visible)];
    assert SuggestionScript(h, entry, adapterType, showImage) == i + a + b + c;
    ReplayAppend(s, id, i + a + b, c);
    ReplayAppend(s, id, i + a, b);
    ReplayAppend(s, id, i, a);
    ReplayIcon(s, id, showImage, entry, h.imageView, adapterType);
    var s1 := Replay(s, id, i);
    ReplayHidden(s1, id, h.addSuggestionView);
    var s2 := Replay(s1, id, a);
    ReplayHidden(s2, id, h.deleteSuggestionView);
    ReplayOne(Replay(s2, id, b), id, SetVisibility(Icon, Visible));
  }

  lemma ReplayDelete(s: ViewState, id: ViewId, drawable: Option<DrawableRef>, view: Option<ViewId>)
    ensures Replay(s, id, DeleteScript(drawable, view)) ==
      if view != Some(id) then s
      else if drawable.None? then s.(visibility := Gone, image := NoImage)
      else s.(image := ImageDrawable(drawable.value))
  {
    if view.Some? && drawable.None? {
      ReplayTwo(s, id, SetVisibility(view.value, Gone), SetImage(view.value, NoImage));
    }
  }

  lemma ReplayRevert(s: ViewState, id: ViewId, holder: ViewHolder)
    requires holder.iconsView != holder.actionView || holder.iconsView.None?
    ensures Replay(s, id, RevertScript(holder)) ==
      if holder.iconsView == Some(id) then s.(alpha := 1.0, visibility := Visible)
      else if holder.actionView == Some(id) then s.(alpha := 1.0, visibility := Gone)
      else s
  {
    var a, b := Restored(holder.iconsView, Visible), Restored(holder.actionView, Gone);
    ReplayAppend(s, id, a, b);
    if holder.iconsView.Some? {
      ReplayTwo(s, id, SetAlpha(holder.iconsView.value, 1.0), SetVisibility(holder.iconsView.value, Visible));
    }
    if holder.actionView.Some? {
      ReplayTwo(Replay(s, id, a), id, SetAlpha(holder.actionView.value, 1.0),
                SetVisibility(holder.actionView.value, Gone));
    }
  }

  /** The three text lines, seen from one sub-view. */
  lemma ReplayTexts(s: ViewState, id: ViewId, present: set<ViewId>, fields: Fields)
    ensures
      var h := NewViewHolder(present);
      Replay(s, id, TextScript(fields.displayName, h.displayNameView)
                    + TextScript(fields.destination, h.destinationView)
                    + TextScript(fields.destinationType, h.destinationTypeView))
      == if id !in present then s
         else if id == Title then BoundText(s, fields.displayName)
         else if id == Text1 then BoundText(s, fields.destination)
         else if id == Text2 then BoundText(s, fields.destinationType)
         else s
  {
    var h := NewViewHolder(present);
    var t1 := TextScript(fields.displayName, h.displayNameView);
    var t2 := TextScript(fields.destination, h.destinationView);
    var t3 := TextScript(fields.destinationType, h.destinationTypeView);
    ReplayAppend(s, id, t1 + t2, t3);
    ReplayAppend(s, id, t1, t2);
    ReplayText(s, id, fields.displayName, h.displayNameView);
    var s1 := Replay(s, id, t1);
    ReplayText(s1, id, fields.destination, h.destinationView);
    ReplayText(Replay(s1, id, t2), id, fields.destinationType, h.destinationTypeView);
  }

  /** Suggestion buttons or photo, delete button and reset, seen from one sub-view. */
  lemma ReplayTail(s: ViewState, id: ViewId, present: set<ViewId>, entry: RecipientEntry,
                   adapterType: AdapterType, fields: Fields, deleteDrawable: Option<DrawableRef>)
    requires id in present && Icon in present
    ensures
      var h := NewViewHolder(present);
      Replay(s, id, SuggestionScript(h, entry, adapterType, fields.showImage)
                    + DeleteScript(deleteDrawable, h.deleteView) + RevertScript(h))
      == if id == Title || id == Text1 || id == Text2 then s
         else BoundView(id, s, entry, adapterType, fields, deleteDrawable)
  {
    var h := NewViewHolder(present);
    var sg := SuggestionScript(h, entry, adapterType, fields.showImage);
    var dl := DeleteScript(deleteDrawable, h.deleteView);
    var rv := RevertScript(h);
    ReplayAppend(s, id, sg + dl, rv);
    ReplayAppend(s, id, sg, dl);
    ReplaySuggestion(s, id, present, entry, adapterType, fields.showImage);
    var s1 := Replay(s, id, sg);
    ReplayDelete(s1, id, deleteDrawable, h.deleteView);
    ReplayRevert(Replay(s1, id, dl), id, h);
  }

  /** Seen from one sub-view, the writes after the divider leave it as BoundView says. */
  lemma ReplayFields(s: ViewState, id: ViewId, present: set<ViewId>, entry: RecipientEntry,
                     adapterType: AdapterType, fields: Fields, deleteDrawable: Option<DrawableRef>)
    requires id in present && Icon in present
    ensures Replay(s, id, FieldsScript(NewViewHolder(present), entry, adapterType, fields, deleteDrawable))
         == BoundView(id, s, entry, adapterType, fields, deleteDrawable)
  {
    var h := NewViewHolder(present);
    var ts := TextScript(fields.displayName, h.displayNameView)
              + TextScript(fields.destination, h.destinationView)
              + TextScript(fields.destinationType, h.destinationTypeView);
    var sg := SuggestionScript(h, entry, adapterType, fields.showImage);
    var dl := DeleteScript(deleteDrawable, h.deleteView);
    var rv := RevertScript(h);
    assert FieldsScript(h, entry, adapterType, fields, deleteDrawable) == ts + (sg + dl + rv);
    ReplayAppend(s, id, ts, sg + dl + rv);
    ReplayTexts(s, id, present, fields);
    ReplayTail(Replay(s, id, ts), id, present, entry, adapterType, fields, deleteDrawable);
  }

  /** Seen from one sub-view, the bind script leaves it as BoundView says. */
  lemma ReplayBind(s: ViewState, id: ViewId, present: set<ViewId>, entry: RecipientEntry,
                   adapterType: AdapterType, position: int, fields: Fields, deleteDrawable: Option<DrawableRef>)
    requires id in present && Icon in present
    ensures Replay(s, id, BindScript(NewViewHolder(present), entry, adapterType, position, fields, deleteDrawable))
         == BoundView(id, s, entry, adapterType, fields, deleteDrawable)
  {
    var h := NewViewHolder(present);
    var d := DividerScript(h, adapterType, position);
    ReplayAppend(s, id, d, FieldsScript(h, entry, adapterType, fields, deleteDrawable));
    ReplayDivider(s, id, h, adapterType, position);
    ReplayFields(Replay(s, id, d), id, present, entry, adapterType, fields, deleteDrawable);
  }

  /**
   * The writes of a bind, applied in order to a row that has a photo view,
   * leave every sub-view as BoundState says: last write wins wherever two
   * writes reach the same sub-view.
   */
  lemma BindScriptYieldsBoundState(before: map<ViewId, ViewState>, entry: RecipientEntry,
                                   adapterType: AdapterType, position: int, fields: Fields,
                                   deleteDrawable: Option<DrawableRef>)
    requires Icon in before
    ensures Run(before, BindScript(NewViewHolder(before.Keys), entry, adapterType, position, fields, deleteDrawable))
         == BoundState(before, entry, adapterType, fields, deleteDrawable)
  {
    var ws := BindScript(NewViewHolder(before.Keys), entry, adapterType, position, fields, deleteDrawable);
    var after := Run(before, ws);
    var expected := BoundState(before, entry, adapterType, fields, deleteDrawable);
    forall id | id in before ensures after[id] == expected[id] {
      RunAt(before, ws, id);
      ReplayBind(before[id], id, before.Keys, entry, adapterType, position, fields, deleteDrawable);
    }
  }
}
