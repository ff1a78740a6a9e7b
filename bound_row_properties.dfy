/**
 * What a bound row shows: the decision table of the fields per adapter
 * type, and the state of each sub-view after the writes of a successful
 * bind, including the places where a later write overrides an earlier one.
 */
module BoundRowProperties {
  import opened Wrappers
  import opened Recipients
  import opened Views
  import opened RowBinding
  import opened RowBindingProofs

  // ---------------------------------------------------------------------
  // The decision table
  // ---------------------------------------------------------------------

  /**
   * Base list, first-level entry whose name is missing, empty or equal to
   * its destination: the destination moves up to the name line and the
   * destination line is hidden.
   */
  lemma BaseNameFallsBack(entry: RecipientEntry, position: int, typeLabel: string, addresses: seq<string>)
    requires entry.isFirstLevel && NameFallsBack(entry)
    ensures Presentation(entry, BaseRecipient, position, typeLabel, addresses)
         == Ok(Fields(entry.destination, None, Some(typeLabel), true))
  {
  }

  /** Base list, first-level entry with a name of its own: everything is shown as it is. */
  lemma BaseOwnName(entry: RecipientEntry, position: int, typeLabel: string, addresses: seq<string>)
    requires entry.isFirstLevel && !NameFallsBack(entry)
    ensures Presentation(entry, BaseRecipient, position, typeLabel, addresses)
         == Ok(Fields(entry.displayName, entry.destination, Some(typeLabel), true))
  {
  }

  /** Base list, entry that is not first-level: no name and no photo, whatever the name is. */
  lemma BaseNotFirstLevel(entry: RecipientEntry, position: int, typeLabel: string, addresses: seq<string>)
    requires !entry.isFirstLevel
    ensures Presentation(entry, BaseRecipient, position, typeLabel, addresses)
         == Ok(Fields(None, entry.destination, Some(typeLabel), false))
  {
  }

  /** Alternates list: the first row keeps name and photo; every other row drops both. */
  lemma AlternatesByPosition(entry: RecipientEntry, position: int, typeLabel: string, addresses: seq<string>)
    ensures Presentation(entry, RecipientAlternates, position, typeLabel, addresses)
         == if position == 0 then Ok(Fields(entry.displayName, entry.destination, Some(typeLabel), true))
            else Ok(Fields(None, entry.destination, Some(typeLabel), false))
  {
  }

  /**
   * Single-recipient list: the destination becomes the first address the
   * tokenizer finds and the type line is dropped; a missing destination or
   * one without any address is an error.
   */
  lemma SingleRecipientFirstAddress(entry: RecipientEntry, position: int, typeLabel: string,
                                    addresses: seq<string>)
    ensures Presentation(entry, SingleRecipient, position, typeLabel, addresses)
         == if entry.destination.None? then Err(NullDestination)
            else if addresses == [] then Err(NoAddressToken)
            else Ok(Fields(entry.displayName, Some(addresses[0]), None, true))
  {
  }

  // ---------------------------------------------------------------------
  // The row after the writes of a bind
  // ---------------------------------------------------------------------

  /** The writes of a bind into a row with sub-views `before`. */
  function Script(before: map<ViewId, ViewState>, entry: RecipientEntry, adapterType: AdapterType, position: int,
                  fields: Fields, deleteDrawable: Option<DrawableRef>): seq<Write>
    requires Icon in before
  {
    BindScript(NewViewHolder(before.Keys), entry, adapterType, position, fields, deleteDrawable)
  }

  /** A row after the writes of a bind. */
  function Bound(before: map<ViewId, ViewState>, entry: RecipientEntry, adapterType: AdapterType, position: int,
                 fields: Fields, deleteDrawable: Option<DrawableRef>): map<ViewId, ViewState>
    requires Icon in before
  {
    Run(before, Script(before, entry, adapterType, position, fields, deleteDrawable))
  }

  /**
   * Each text line that is present shows its text and is visible, or is
   * hidden with its old text kept when there is nothing to show.
   */
  lemma TextLinesAfterBind(before: map<ViewId, ViewState>, entry: RecipientEntry, adapterType: AdapterType,
                           position: int, fields: Fields, deleteDrawable: Option<DrawableRef>)
    requires Icon in before
    ensures
      var after := Bound(before, entry, adapterType, position, fields, deleteDrawable);
      forall id | id in before && id in {Title, Text1, Text2} ::
        var text := if id == Title then fields.displayName
                    else if id == Text1 then fields.destination
                    else fields.destinationType;
        && (text.Some? ==> after[id].text == text.value && after[id].visibility == Visible)
        && (text.None? ==> after[id].text == before[id].text && after[id].visibility == Gone)
  {
    BindScriptYieldsBoundState(before, entry, adapterType, position, fields, deleteDrawable);
  }

  /**
   * A suggested entry gets both present suggestion buttons tagged with it
   * and shown, and its photo hidden; any other entry gets the buttons
   * hidden and the photo shown, with the entry's photo when `showImage`.
   */
  lemma SuggestionOrPhotoAfterBind(before: map<ViewId, ViewState>, entry: RecipientEntry, adapterType: AdapterType,
                                   position: int, fields: Fields, deleteDrawable: Option<DrawableRef>)
    requires Icon in before
    ensures
      var after := Bound(before, entry, adapterType, position, fields, deleteDrawable);
      && (forall id | id in before && id in {ChipSuggestedContactAdd, ChipSuggestedContactDelete} ::
            if IsSuggested(entry) then after[id].tag == Some(entry) && after[id].visibility == Visible
            else after[id].visibility == Gone)
      && after[Icon].visibility == (if IsSuggested(entry) then Gone else Visible)
      && after[Icon].image == (if !IsSuggested(entry) && fields.showImage then PhotoSource(entry, adapterType)
                               else before[Icon].image)
  {
    BindScriptYieldsBoundState(before, entry, adapterType, position, fields, deleteDrawable);
  }

  /**
   * An entry that is not suggested, bound without its photo: the writes
   * hide the photo view and then show it again, and the row ends with the
   * photo view visible, showing whatever image it had before.
   */
  lemma PhotoShownEvenWhenHidden(before: map<ViewId, ViewState>, entry: RecipientEntry, adapterType: AdapterType,
                                 position: int, fields: Fields, deleteDrawable: Option<DrawableRef>)
    requires Icon in before && !IsSuggested(entry) && !fields.showImage
    ensures SetVisibility(Icon, Gone) in Script(before, entry, adapterType, position, fields, deleteDrawable)
    ensures
      var after := Bound(before, entry, adapterType, position, fields, deleteDrawable);
      after[Icon].visibility == Visible && after[Icon].image == before[Icon].image
  {
    var h := NewViewHolder(before.Keys);
    var d := DividerScript(h, adapterType, position);
    var t := TextScript(fields.displayName, h.displayNameView)
             + TextScript(fields.destination, h.destinationView)
             + TextScript(fields.destinationType, h.destinationTypeView);
    var i := IconScript(fields.showImage, entry, h.imageView, adapterType);
    assert i == [SetVisibility(Icon, Gone)];
    var script := Script(before, entry, adapterType, position, fields, deleteDrawable);
    assert script[|d| + |t|] == SetVisibility(Icon, Gone);
    BindScriptYieldsBoundState(before, entry, adapterType, position, fields, deleteDrawable);
  }

  /**
   * The top divider is the icons layout. On the base list below the first
   * position the writes hide it, and the reset at the end shows it again:
   * on every row of every list it ends visible and fully opaque.
   */
  lemma DividerShownOnEveryRow(before: map<ViewId, ViewState>, entry: RecipientEntry, adapterType: AdapterType,
                               position: int, fields: Fields, deleteDrawable: Option<DrawableRef>)
    requires Icon in before && ChipsRecipientsIconsLayout in before
    ensures adapterType == BaseRecipient && position != 0 ==>
      SetVisibility(ChipsRecipientsIconsLayout, Gone) in Script(before, entry, adapterType, position, fields,
                                                                deleteDrawable)
    ensures
      var after := Bound(before, entry, adapterType, position, fields, deleteDrawable);
      after[ChipsRecipientsIconsLayout].visibility == Visible && after[ChipsRecipientsIconsLayout].alpha == 1.0
  {
    var script := Script(before, entry, adapterType, position, fields, deleteDrawable);
    if adapterType == BaseRecipient && position != 0 {
      assert script[0] == SetVisibility(ChipsRecipientsIconsLayout, Gone);
    }
    BindScriptYieldsBoundState(before, entry, adapterType, position, fields, deleteDrawable);
  }

  /**
   * Why the divider ends visible, read off the writes themselves: the
   * reset's setVisibility(VISIBLE) on the icons layout is the last
   * visibility write addressed to it, since only the action layout's reset
   * follows, so it wins over the base list's earlier GONE.
   */
  lemma DividerShownByLastWrite(before: map<ViewId, ViewState>, entry: RecipientEntry, adapterType: AdapterType,
                                position: int, fields: Fields, deleteDrawable: Option<DrawableRef>)
    requires Icon in before && ChipsRecipientsIconsLayout in before
    ensures
      var script := Script(before, entry, adapterType, position, fields, deleteDrawable);
      var k := |script| - |Restored(NewViewHolder(before.Keys).actionView, Gone)| - 1;
      && 0 <= k < |script| && script[k] == SetVisibility(ChipsRecipientsIconsLayout, Visible)
      && forall j | k < j < |script| :: !HidesOrShows(script, j, ChipsRecipientsIconsLayout)
    ensures Bound(before, entry, adapterType, position, fields, deleteDrawable)[ChipsRecipientsIconsLayout].visibility
            == Visible
  {
    var h := NewViewHolder(before.Keys);
    var script := Script(before, entry, adapterType, position, fields, deleteDrawable);
    var tail := Restored(h.actionView, Gone);
    var k := |script| - |tail| - 1;
    assert script == DividerScript(h, adapterType, position)
                     + (TextScript(fields.displayName, h.displayNameView)
                        + TextScript(fields.destination, h.destinationView)
                        + TextScript(fields.destinationType, h.destinationTypeView)
                        + SuggestionScript(h, entry, adapterType, fields.showImage)
                        + DeleteScript(deleteDrawable, h.deleteView)
                        + Restored(h.iconsView, Visible))
                     + tail;
    assert script[k] == SetVisibility(ChipsRecipientsIconsLayout, Visible);
    forall j | k < j < |script| ensures !HidesOrShows(script, j, ChipsRecipientsIconsLayout) {
      assert script[j] == tail[j - k - 1];
    }
    RunAt(before, script, ChipsRecipientsIconsLayout);
    LastVisibilityWriteWins(before[ChipsRecipientsIconsLayout], ChipsRecipientsIconsLayout, script, k);
  }

  /** The action layout ends hidden and fully opaque. */
  lemma ActionLayoutHiddenAfterBind(before: map<ViewId, ViewState>, entry: RecipientEntry, adapterType: AdapterType,
                                    position: int, fields: Fields, deleteDrawable: Option<DrawableRef>)
    requires Icon in before && ChipRecipientsActionLayout in before
    ensures
      var after := Bound(before, entry, adapterType, position, fields, deleteDrawable);
      after[ChipRecipientsActionLayout].visibility == Gone && after[ChipRecipientsActionLayout].alpha == 1.0
  {
    BindScriptYieldsBoundState(before, entry, adapterType, position, fields, deleteDrawable);
  }

  /**
   * The bind never shows the delete button: it is hidden, with no image,
   * when there is no drawable, and otherwise keeps the visibility it had.
   */
  lemma DeleteButtonNeverShown(before: map<ViewId, ViewState>, entry: RecipientEntry, adapterType: AdapterType,
                               position: int, fields: Fields, deleteDrawable: Option<DrawableRef>)
    requires Icon in before && Icon1 in before
    ensures
      var after := Bound(before, entry, adapterType, position, fields, deleteDrawable);
      && (after[Icon1].visibility == Visible ==> before[Icon1].visibility == Visible)
      && (deleteDrawable.None? ==> after[Icon1].visibility == Gone && after[Icon1].image == NoImage)
      && (deleteDrawable.Some? ==> after[Icon1].image == ImageDrawable(deleteDrawable.value))
  {
    BindScriptYieldsBoundState(before, entry, adapterType, position, fields, deleteDrawable);
  }

  /** Every sub-view but the delete button gets a visibility that does not depend on its old one. */
  lemma BoundViewVisibility(id: ViewId, s1: ViewState, s2: ViewState, entry: RecipientEntry,
                            adapterType: AdapterType, fields: Fields, deleteDrawable: Option<DrawableRef>)
    requires id != Icon1
    ensures BoundView(id, s1, entry, adapterType, fields, deleteDrawable).visibility
         == BoundView(id, s2, entry, adapterType, fields, deleteDrawable).visibility
  {
  }

  /**
   * The visibility of every sub-view but the delete button is decided by
   * the bind alone: two rows with the same sub-views end with the same
   * visibilities, whatever a previous bind left in them.
   */
  lemma VisibilityDecidedByBind(before1: map<ViewId, ViewState>, before2: map<ViewId, ViewState>,
                                entry: RecipientEntry, adapterType: AdapterType, position: int, fields: Fields,
                                deleteDrawable: Option<DrawableRef>)
    requires Icon in before1 && before1.Keys == before2.Keys
    ensures
      var after1 := Bound(before1, entry, adapterType, position, fields, deleteDrawable);
      var after2 := Bound(before2, entry, adapterType, position, fields, deleteDrawable);
      forall id | id in before1 && id != Icon1 :: after1[id].visibility == after2[id].visibility
  {
    BindScriptYieldsBoundState(before1, entry, adapterType, position, fields, deleteDrawable);
    BindScriptYieldsBoundState(before2, entry, adapterType, position, fields, deleteDrawable);
    var after1 := BoundState(before1, entry, adapterType, fields, deleteDrawable);
    var after2 := BoundState(before2, entry, adapterType, fields, deleteDrawable);
    forall id | id in before1 && id != Icon1 ensures after1[id].visibility == after2[id].visibility {
      BoundViewVisibility(id, before1[id], before2[id], entry, adapterType, fields, deleteDrawable);
    }
  }

  /** A bound sub-view is a fixed point of binding the same entry again. */
  lemma BoundViewIdempotent(id: ViewId, s: ViewState, entry: RecipientEntry, adapterType: AdapterType,
                            fields: Fields, deleteDrawable: Option<DrawableRef>)
    ensures
      var t := BoundView(id, s, entry, adapterType, fields, deleteDrawable);
      BoundView(id, t, entry, adapterType, fields, deleteDrawable) == t
  {
  }

  /** Binding a bound row again with the same entry, position and fields changes nothing. */
  lemma RebindChangesNothing(before: map<ViewId, ViewState>, entry: RecipientEntry, adapterType: AdapterType,
                             position: int, fields: Fields, deleteDrawable: Option<DrawableRef>)
    requires Icon in before
    ensures
      var after := Bound(before, entry, adapterType, position, fields, deleteDrawable);
      Icon in after && Bound(after, entry, adapterType, position, fields, deleteDrawable) == after
  {
    var after := Bound(before, entry, adapterType, position, fields, deleteDrawable);
    BindScriptYieldsBoundState(before, entry, adapterType, position, fields, deleteDrawable);
    assert after == BoundState(before, entry, adapterType, fields, deleteDrawable);
    BindScriptYieldsBoundState(after, entry, adapterType, position, fields, deleteDrawable);
    var again := BoundState(after, entry, adapterType, fields, deleteDrawable);
    forall id | id in after ensures again[id] == after[id] {
      BoundViewIdempotent(id, before[id], entry, adapterType, fields, deleteDrawable);
    }
  }

  // ---------------------------------------------------------------------
  // The decision table, as the row shows it
  // ---------------------------------------------------------------------

  /**
   * Base list, first-level entry whose name falls back: the name line
   * shows the destination and the destination line is hidden.
   */
  lemma BaseFallbackRow(before: map<ViewId, ViewState>, entry: RecipientEntry, position: int, typeLabel: string,
                        addresses: seq<string>, deleteDrawable: Option<DrawableRef>)
    requires Icon in before && Title in before && Text1 in before
    requires entry.isFirstLevel && NameFallsBack(entry) && entry.destination.Some?
    ensures
      var fields := Presentation(entry, BaseRecipient, position, typeLabel, addresses).value;
      var after := Bound(before, entry, BaseRecipient, position, fields, deleteDrawable);
      && after[Title].text == entry.destination.value && after[Title].visibility == Visible
      && after[Text1].visibility == Gone
  {
    BaseNameFallsBack(entry, position, typeLabel, addresses);
    var fields := Fields(entry.destination, None, Some(typeLabel), true);
    BindScriptYieldsBoundState(before, entry, BaseRecipient, position, fields, deleteDrawable);
  }

  /** Alternates list below the first row: the name line is hidden. */
  lemma AlternatesNameHiddenRow(before: map<ViewId, ViewState>, entry: RecipientEntry, position: int,
                                typeLabel: string, addresses: seq<string>, deleteDrawable: Option<DrawableRef>)
    requires Icon in before && Title in before && position != 0
    ensures
      var fields := Presentation(entry, RecipientAlternates, position, typeLabel, addresses).value;
      Bound(before, entry, RecipientAlternates, position, fields, deleteDrawable)[Title].visibility == Gone
  {
    AlternatesByPosition(entry, position, typeLabel, addresses);
    var fields := Fields(None, entry.destination, Some(typeLabel), false);
    BindScriptYieldsBoundState(before, entry, RecipientAlternates, position, fields, deleteDrawable);
  }

  /**
   * Single-recipient list: the destination line shows the first address
   * and the type line is hidden.
   */
  lemma SingleRecipientRow(before: map<ViewId, ViewState>, entry: RecipientEntry, position: int, typeLabel: string,
                           addresses: seq<string>, deleteDrawable: Option<DrawableRef>)
    requires Icon in before && Text1 in before && Text2 in before
    requires entry.destination.Some? && addresses != []
    ensures
      var fields := Presentation(entry, SingleRecipient, position, typeLabel, addresses).value;
      var after := Bound(before, entry, SingleRecipient, position, fields, deleteDrawable);
      && after[Text1].text == addresses[0] && after[Text1].visibility == Visible
      && after[Text2].visibility == Gone
  {
    SingleRecipientFirstAddress(entry, position, typeLabel, addresses);
    var fields := Fields(entry.displayName, Some(addresses[0]), None, true);
    BindScriptYieldsBoundState(before, entry, SingleRecipient, position, fields, deleteDrawable);
  }
}
