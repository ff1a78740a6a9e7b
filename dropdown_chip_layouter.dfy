/**
 * The layouter that inflates rows of the recipient drop-down list and binds
 * recipient entries into them.
 *
 * Calls into the toolkit are inputs: the inflater is a function from layout
 * to the sub-views a freshly inflated row has, the localized
 * destination-type label is a string, the RFC 822 tokenizer is a function
 * from a destination to the addresses it finds there, and decoding a photo
 * is represented by the bytes decoded.
 */
module Chips {
  import opened Wrappers
  import opened Recipients
  import opened Views
  import opened RowBinding
  import opened RowBindingProofs

  /** The row layouts. */
  datatype LayoutRes = ChipsAutocompleteRecipientDropdownItem | ChipsRecipientDropdownItem

  /** The layout of an item in the auto-complete list. */
  function ItemLayoutResId(adapterType: AdapterType): (layout: LayoutRes)
    ensures layout == ChipsAutocompleteRecipientDropdownItem <==> adapterType == BaseRecipient
  {
    match adapterType
    case BaseRecipient => ChipsAutocompleteRecipientDropdownItem
    case RecipientAlternates => ChipsRecipientDropdownItem
    case SingleRecipient => ChipsRecipientDropdownItem
  }

  /** The layout of an item in the alternates list; it agrees with ItemLayoutResId on every type. */
  function AlternateItemLayoutResId(adapterType: AdapterType): (layout: LayoutRes)
    ensures layout == ChipsAutocompleteRecipientDropdownItem <==> adapterType == BaseRecipient
    ensures layout == ItemLayoutResId(adapterType)
  {
    match adapterType
    case BaseRecipient => ChipsAutocompleteRecipientDropdownItem
    case RecipientAlternates => ChipsRecipientDropdownItem
    case SingleRecipient => ChipsRecipientDropdownItem
  }

  class DropdownChipLayouter {
    /** The layout inflater: the sub-views of a freshly inflated row of each layout. */
    const inflate: LayoutRes -> map<ViewId, ViewState>
    /** The RFC 822 tokenizer: the addresses it finds in a destination. */
    const tokenize: string -> seq<string>

    constructor (inflate: LayoutRes -> map<ViewId, ViewState>, tokenize: string -> seq<string>)
      ensures this.inflate == inflate && this.tokenize == tokenize
    {
      this.inflate := inflate;
      this.tokenize := tokenize;
    }

    /** The addresses the tokenizer finds in the entry's destination; none when it is null. */
    function Addresses(entry: RecipientEntry): seq<string>
    {
      if entry.destination.Some? then tokenize(entry.destination.value) else []
    }

    /** A freshly inflated row for the adapter type. */
    method NewView(adapterType: AdapterType) returns (itemView: RowView)
      ensures fresh(itemView) && itemView.trace == []
      ensures itemView.views == inflate(ItemLayoutResId(adapterType))
    {
      itemView := new RowView(inflate(ItemLayoutResId(adapterType)));
    }

    /**
     * The given row when there is one, otherwise a row inflated from the
     * layout for the adapter type; `inflated` names that layout, or is None
     * when the row was reused.
     */
    method ReuseOrInflateView(convertView: RowView?, adapterType: AdapterType)
      returns (itemView: RowView, inflated: Option<LayoutRes>)
      ensures convertView != null ==> itemView == convertView && inflated == None
      ensures convertView == null ==>
        && inflated == Some(if adapterType == BaseRecipient then ChipsAutocompleteRecipientDropdownItem
                            else ChipsRecipientDropdownItem)
        && fresh(itemView) && itemView.trace == []
        && itemView.views == inflate(inflated.value)
    {
      var itemLayout := ItemLayoutResId(adapterType);
      match adapterType {
        case BaseRecipient =>
        case RecipientAlternates =>
        case SingleRecipient =>
          itemLayout := AlternateItemLayoutResId(adapterType);
      }
      if convertView != null {
        itemView, inflated := convertView, None;
      } else {
        itemView := new RowView(inflate(itemLayout));
        inflated := Some(itemLayout);
      }
    }

    /** Shows `text` in the view, or hides the view when there is no text. */
    method BindTextToView(text: Option<string>, row: RowView, view: Option<ViewId>)
      requires view.Some? ==> view.value in row.views
      modifies row
      ensures row.trace == old(row.trace) + TextScript(text, view)
      ensures row.views == Run(old(row.views), TextScript(text, view))
      ensures view.None? ==> row.views == old(row.views)
      ensures view.Some? && text.None? ==>
        row.views == old(row.views)[view.value := old(row.views)[view.value].(visibility := Gone)]
      ensures view.Some? && text.Some? ==>
        row.views == old(row.views)[view.value := old(row.views)[view.value].(text := text.value, visibility := Visible)]
    {
      if view.None? {
        return;
      }
      if text.Some? {
        row.SetText(view.value, text.value);
        row.SetVisibility(view.value, Visible);
        RunTwo(old(row.views), SetText(view.value, text.value), SetVisibility(view.value, Visible));
      } else {
        row.SetVisibility(view.value, Gone);
        RunOne(old(row.views), SetVisibility(view.value, Gone));
      }
    }

    /** Shows the entry's photo in the view, or hides the view when no image is wanted. */
    method BindIconToView(showImage: bool, entry: RecipientEntry, row: RowView, view: Option<ViewId>,
                          adapterType: AdapterType)
      requires view.Some? ==> view.value in row.views
      modifies row
      ensures row.trace == old(row.trace) + IconScript(showImage, entry, view, adapterType)
      ensures row.views == Run(old(row.views), IconScript(showImage, entry, view, adapterType))
      ensures view.None? ==> row.views == old(row.views)
      ensures view.Some? && showImage ==>
        row.views == old(row.views)[view.value :=
          old(row.views)[view.value].(image := PhotoSource(entry, adapterType), visibility := Visible)]
      ensures view.Some? && !showImage ==>
        row.views == old(row.views)[view.value := old(row.views)[view.value].(visibility := Gone)]
    {
      if view.None? {
        return;
      }
      var id := view.value;
      if showImage {
        match adapterType {
          case BaseRecipient =>
            var photoBytes := entry.photoBytes;
            if photoBytes.Some? && |photoBytes.value| > 0 {
              row.SetImage(id, DecodedBitmap(photoBytes.value));
            } else {
              row.SetImage(id, ImageResource(DefaultPhotoResId));
            }
          case RecipientAlternates =>
            var thumbnailUri := entry.photoThumbnailUri;
            if thumbnailUri.Some? {
              row.SetImage(id, ImageUri(thumbnailUri.value));
            } else {
              row.SetImage(id, ImageResource(DefaultPhotoResId));
            }
          case SingleRecipient =>
            row.SetImage(id, ImageResource(DefaultPhotoResId));
        }
        row.SetVisibility(id, Visible);
        RunTwo(old(row.views), SetImage(id, PhotoSource(entry, adapterType)), SetVisibility(id, Visible));
      } else {
        row.SetVisibility(id, Gone);
        RunOne(old(row.views), SetVisibility(id, Gone));
      }
    }

    /**
     * Puts the drawable into the delete button; with no drawable the button
     * is hidden. The button is never made visible here.
     */
    method BindDrawableToDeleteView(drawable: Option<DrawableRef>, row: RowView, view: Option<ViewId>)
      requires view.Some? ==> view.value in row.views
      modifies row
      ensures row.trace == old(row.trace) + DeleteScript(drawable, view)
      ensures row.views == Run(old(row.views), DeleteScript(drawable, view))
      ensures view.None? ==> row.views == old(row.views)
      ensures view.Some? ==>
        var s := old(row.views)[view.value];
        row.views == old(row.views)[view.value := s.(
          visibility := if drawable.None? then Gone else s.visibility,
          image := if drawable.None? then NoImage else ImageDrawable(drawable.value))]
    {
      if view.None? {
        return;
      }
      if drawable.None? {
        row.SetVisibility(view.value, Gone);
      }
      row.SetImage(view.value, if drawable.None? then NoImage else ImageDrawable(drawable.value));
      if drawable.None? {
        RunTwo(old(row.views), SetVisibility(view.value, Gone), SetImage(view.value, NoImage));
      } else {
        RunOne(old(row.views), SetImage(view.value, ImageDrawable(drawable.value)));
      }
    }

    /**
     * Binds an entry into a row at a list position, reusing `convertView`
     * when there is one. The row must have a photo view. A single-recipient
     * bind fails before writing anything when the tokenizer has no address
     * to give; otherwise the row receives exactly the writes of BindScript,
     * in order, and ends as BoundState says.
     */
    method BindView(convertView: RowView?, entry: RecipientEntry, position: int, adapterType: AdapterType,
                    typeLabel: string, deleteDrawable: Option<DrawableRef>)
      returns (result: Result<RowView, BindError>)
      requires convertView != null ==> Icon in convertView.views
      requires convertView == null ==> Icon in inflate(ItemLayoutResId(adapterType))
      modifies convertView
      ensures result.Err? <==> Presentation(entry, adapterType, position, typeLabel, Addresses(entry)).Err?
      ensures result.Err? ==>
        && result.error == Presentation(entry, adapterType, position, typeLabel, Addresses(entry)).error
        && (convertView != null ==>
              convertView.views == old(convertView.views) && convertView.trace == old(convertView.trace))
      ensures result.Ok? ==>
        var itemView := result.value;
        var before := if convertView != null then old(convertView.views) else inflate(ItemLayoutResId(adapterType));
        var fields := Presentation(entry, adapterType, position, typeLabel, Addresses(entry)).value;
        var script := BindScript(NewViewHolder(before.Keys), entry, adapterType, position, fields, deleteDrawable);
        && (convertView != null ==> itemView == convertView && itemView.trace == old(convertView.trace) + script)
        && (convertView == null ==> fresh(itemView) && itemView.trace == script)
        && itemView.views == Run(before, script)
        && itemView.views == BoundState(before, entry, adapterType, fields, deleteDrawable)
    {
      var itemView, inflated := ReuseOrInflateView(convertView, adapterType);
      ghost var before, trace0 := itemView.views, itemView.trace;
      var viewHolder := NewViewHolder(itemView.views.Keys);

      var presentation := HideInformation(itemView, viewHolder, entry, adapterType, position, typeLabel);
      if presentation.Err? {
        assert adapterType == SingleRecipient && DividerScript(viewHolder, adapterType, position) == [];
        assert itemView.views == before && itemView.trace == trace0;
        return Err(presentation.error);
      }
      var fields := presentation.value;
      ghost var divider := DividerScript(viewHolder, adapterType, position);
      ghost var afterDivider, trace1 := itemView.views, itemView.trace;

      BindFields(itemView, viewHolder, entry, adapterType, fields, deleteDrawable);
      ghost var rest := FieldsScript(viewHolder, entry, adapterType, fields, deleteDrawable);
      RunThen(before, trace0, divider, afterDivider, trace1, rest, itemView.views, itemView.trace);
      BindScriptYieldsBoundState(before, entry, adapterType, position, fields, deleteDrawable);
      return Ok(itemView);
    }

    /**
     * The first half of BindView: starts from all of the entry's
     * information and hides some of it depending on the entry and the
     * adapter type. A base-recipient row also shows its top divider on the
     * first position only. A single-recipient entry without a destination,
     * or whose destination holds no address, fails without a write.
     */
    method HideInformation(itemView: RowView, viewHolder: ViewHolder, entry: RecipientEntry,
                           adapterType: AdapterType, position: int, typeLabel: string)
      returns (presentation: Result<Fields, BindError>)
      requires viewHolder == NewViewHolder(itemView.views.Keys)
      modifies itemView
      ensures presentation == Presentation(entry, adapterType, position, typeLabel, Addresses(entry))
      ensures itemView.trace == old(itemView.trace) + DividerScript(viewHolder, adapterType, position)
      ensures itemView.views == Run(old(itemView.views), DividerScript(viewHolder, adapterType, position))
    {
      // Default to show all the information
      var displayName := entry.displayName;
      var destination := entry.destination;
      var showImage := true;
      var destinationType := Some(typeLabel);

      // Hide some information depending on the entry type and adapter type
      match adapterType {
        case BaseRecipient =>
          if displayName.None? || displayName == Some("") || displayName == destination {
            displayName := destination;
            if entry.isFirstLevel {
              destination := None;
            }
          }
          if !entry.isFirstLevel {
            displayName := None;
            showImage := false;
          }
          if viewHolder.topDivider.Some? {
            var visibility := if position == 0 then Visible else Gone;
            itemView.SetVisibility(viewHolder.topDivider.value, visibility);
            RunOne(old(itemView.views), SetVisibility(viewHolder.topDivider.value, visibility));
          }
        case RecipientAlternates =>
          if position != 0 {
            displayName := None;
            showImage := false;
          }
        case SingleRecipient =>
          if destination.None? {
            return Err(NullDestination);
          }
          var addresses := tokenize(destination.value);
          if addresses == [] {
            return Err(NoAddressToken);
          }
          destination := Some(addresses[0]);
          destinationType := None;
      }
      return Ok(Fields(displayName, destination, destinationType, showImage));
    }

    /**
     * The second half of BindView: writes the chosen fields into the row,
     * then the suggestion buttons or the photo, then the delete button, and
     * finally undoes what a suggestion animation may have left behind.
     */
    method BindFields(itemView: RowView, viewHolder: ViewHolder, entry: RecipientEntry, adapterType: AdapterType,
                      fields: Fields, deleteDrawable: Option<DrawableRef>)
      requires viewHolder == NewViewHolder(itemView.views.Keys) && Icon in itemView.views
      modifies itemView
      ensures
        var script := FieldsScript(viewHolder, entry, adapterType, fields, deleteDrawable);
        && itemView.trace == old(itemView.trace) + script
        && itemView.views == Run(old(itemView.views), script)
    {
      ghost var v0, r0 := itemView.views, itemView.trace;
      ghost var ts := TextScript(fields.displayName, viewHolder.displayNameView)
                      + TextScript(fields.destination, viewHolder.destinationView)
                      + TextScript(fields.destinationType, viewHolder.destinationTypeView);
      ghost var sg := SuggestionScript(viewHolder, entry, adapterType, fields.showImage);
      ghost var dl := DeleteScript(deleteDrawable, viewHolder.deleteView);
      ghost var rv := RevertScript(viewHolder);

      BindTexts(itemView, viewHolder, fields);
      ghost var v1, r1 := itemView.views, itemView.trace;
      BindSuggestionOrPhoto(itemView, viewHolder, entry, adapterType, fields.showImage);
      ghost var v2, r2 := itemView.views, itemView.trace;
      RunThen(v0, r0, ts, v1, r1, sg, v2, r2);
      BindDrawableToDeleteView(deleteDrawable, itemView, viewHolder.deleteView);
      ghost var v3, r3 := itemView.views, itemView.trace;
      RunThen(v0, r0, ts + sg, v2, r2, dl, v3, r3);
      RevertAnimations(itemView, viewHolder);
      RunThen(v0, r0, ts + sg + dl, v3, r3, rv, itemView.views, itemView.trace);
    }

    /** The display name, destination and destination type lines. */
    method BindTexts(itemView: RowView, viewHolder: ViewHolder, fields: Fields)
      requires viewHolder == NewViewHolder(itemView.views.Keys)
      modifies itemView
      ensures
        var script := TextScript(fields.displayName, viewHolder.displayNameView)
                      + TextScript(fields.destination, viewHolder.destinationView)
                      + TextScript(fields.destinationType, viewHolder.destinationTypeView);
        && itemView.trace == old(itemView.trace) + script
        && itemView.views == Run(old(itemView.views), script)
    {
      ghost var v0, r0 := itemView.views, itemView.trace;
      ghost var t1 := TextScript(fields.displayName, viewHolder.displayNameView);
      ghost var t2 := TextScript(fields.destination, viewHolder.destinationView);
      ghost var t3 := TextScript(fields.destinationType, viewHolder.destinationTypeView);

      // Bind the information to the view
      BindTextToView(fields.displayName, itemView, viewHolder.displayNameView);
      ghost var v1, r1 := itemView.views, itemView.trace;
      BindTextToView(fields.destination, itemView, viewHolder.destinationView);
      ghost var v2, r2 := itemView.views, itemView.trace;
      RunThen(v0, r0, t1, v1, r1, t2, v2, r2);
      BindTextToView(fields.destinationType, itemView, viewHolder.destinationTypeView);
      RunThen(v0, r0, t1 + t2, v2, r2, t3, itemView.views, itemView.trace);
    }

    /** The suggestion buttons for a suggested entry, the photo for any other. */
    method BindSuggestionOrPhoto(itemView: RowView, viewHolder: ViewHolder, entry: RecipientEntry,
                                 adapterType: AdapterType, showImage: bool)
      requires viewHolder == NewViewHolder(itemView.views.Keys) && Icon in itemView.views
      modifies itemView
      ensures itemView.trace == old(itemView.trace) + SuggestionScript(viewHolder, entry, adapterType, showImage)
      ensures itemView.views == Run(old(itemView.views), SuggestionScript(viewHolder, entry, adapterType, showImage))
    {
      if IsSuggested(entry) {
        ShowSuggestionButtons(itemView, viewHolder, entry);
      } else {
        ShowPhoto(itemView, viewHolder, entry, adapterType, showImage);
      }
    }

    /** Tags a suggestion button with the entry and shows it. */
    method TagAndShow(itemView: RowView, view: Option<ViewId>, entry: RecipientEntry)
      requires view.Some? ==> view.value in itemView.views
      modifies itemView
      ensures itemView.trace == old(itemView.trace) + Tagged(view, entry)
      ensures itemView.views == Run(old(itemView.views), Tagged(view, entry))
    {
      if view.Some? {
        itemView.SetTag(view.value, entry);
        itemView.SetVisibility(view.value, Visible);
        RunTwo(old(itemView.views), SetTag(view.value, entry), SetVisibility(view.value, Visible));
      }
    }

    /** Hides a suggestion button. */
    method Hide(itemView: RowView, view: Option<ViewId>)
      requires view.Some? ==> view.value in itemView.views
      modifies itemView
      ensures itemView.trace == old(itemView.trace) + Hidden(view)
      ensures itemView.views == Run(old(itemView.views), Hidden(view))
    {
      if view.Some? {
        itemView.SetVisibility(view.value, Gone);
        RunOne(old(itemView.views), SetVisibility(view.value, Gone));
      }
    }

    /** Puts a layout back at full opacity with the given visibility. */
    method Restore(itemView: RowView, view: Option<ViewId>, visibility: Visibility)
      requires view.Some? ==> view.value in itemView.views
      modifies itemView
      ensures itemView.trace == old(itemView.trace) + Restored(view, visibility)
      ensures itemView.views == Run(old(itemView.views), Restored(view, visibility))
    {
      if view.Some? {
        itemView.SetAlpha(view.value, 1.0);
        itemView.SetVisibility(view.value, visibility);
        RunTwo(old(itemView.views), SetAlpha(view.value, 1.0), SetVisibility(view.value, visibility));
      }
    }

    /** Sets the photo view's visibility. */
    method SetPhotoVisibility(itemView: RowView, viewHolder: ViewHolder, visibility: Visibility)
      requires viewHolder == NewViewHolder(itemView.views.Keys) && Icon in itemView.views
      modifies itemView
      ensures itemView.trace == old(itemView.trace) + [SetVisibility(viewHolder.imageView.value, visibility)]
      ensures itemView.views == Run(old(itemView.views), [SetVisibility(viewHolder.imageView.value, visibility)])
    {
      itemView.SetVisibility(viewHolder.imageView.value, visibility);
      RunOne(old(itemView.views), SetVisibility(viewHolder.imageView.value, visibility));
    }

    /** A suggested entry: tags and shows each suggestion button present, and hides the photo. */
    method ShowSuggestionButtons(itemView: RowView, viewHolder: ViewHolder, entry: RecipientEntry)
      requires viewHolder == NewViewHolder(itemView.views.Keys) && Icon in itemView.views
      requires IsSuggested(entry)
      modifies itemView
      ensures itemView.trace == old(itemView.trace)
        + (Tagged(viewHolder.addSuggestionView, entry) + Tagged(viewHolder.deleteSuggestionView, entry)
           + [SetVisibility(viewHolder.imageView.value, Gone)])
      ensures itemView.views == Run(old(itemView.views),
        Tagged(viewHolder.addSuggestionView, entry) + Tagged(viewHolder.deleteSuggestionView, entry)
        + [SetVisibility(viewHolder.imageView.value, Gone)])
    {
      ghost var v0, r0 := itemView.views, itemView.trace;
      ghost var a := Tagged(viewHolder.addSuggestionView, entry);
      ghost var b := Tagged(viewHolder.deleteSuggestionView, entry);
      ghost var c := [SetVisibility(viewHolder.imageView.value, Gone)];
      TagAndShow(itemView, viewHolder.addSuggestionView, entry);
      ghost var v1, r1 := itemView.views, itemView.trace;
      TagAndShow(itemView, viewHolder.deleteSuggestionView, entry);
      ghost var v2, r2 := itemView.views, itemView.trace;
      RunThen(v0, r0, a, v1, r1, b, v2, r2);
      SetPhotoVisibility(itemView, viewHolder, Gone);
      RunThen(v0, r0, a + b, v2, r2, c, itemView.views, itemView.trace);
    }

    /**
     * Any other entry: binds the photo, hides each suggestion button present,
     * and then shows the photo view, even when `showImage` has just hidden it.
     */
    method ShowPhoto(itemView: RowView, viewHolder: ViewHolder, entry: RecipientEntry, adapterType: AdapterType,
                     showImage: bool)
      requires viewHolder == NewViewHolder(itemView.views.Keys) && Icon in itemView.views
      requires !IsSuggested(entry)
      modifies itemView
      ensures itemView.trace == old(itemView.trace) + SuggestionScript(viewHolder, entry, adapterType, showImage)
      ensures itemView.views == Run(old(itemView.views), SuggestionScript(viewHolder, entry, adapterType, showImage))
    {
      ghost var v0, r0 := itemView.views, itemView.trace;
      ghost var a := IconScript(showImage, entry, viewHolder.imageView, adapterType);
      ghost var b := Hidden(viewHolder.addSuggestionView);
      ghost var c := Hidden(viewHolder.deleteSuggestionView);
      ghost var d := [SetVisibility(viewHolder.imageView.value, Visible)];
      BindIconToView(showImage, entry, itemView, viewHolder.imageView, adapterType);
      ghost var v1, r1 := itemView.views, itemView.trace;
      Hide(itemView, viewHolder.addSuggestionView);
      ghost var v2, r2 := itemView.views, itemView.trace;
      RunThen(v0, r0, a, v1, r1, b, v2, r2);
      Hide(itemView, viewHolder.deleteSuggestionView);
      ghost var v3, r3 := itemView.views, itemView.trace;
      RunThen(v0, r0, a + b, v2, r2, c, v3, r3);
      SetPhotoVisibility(itemView, viewHolder, Visible);
      RunThen(v0, r0, a + b + c, v3, r3, d, itemView.views, itemView.trace);
    }

    /** Shows the icons layout and hides the action layout, both at full opacity. */
    method RevertAnimations(itemView: RowView, viewHolder: ViewHolder)
      requires viewHolder == NewViewHolder(itemView.views.Keys)
      modifies itemView
      ensures itemView.trace == old(itemView.trace) + RevertScript(viewHolder)
      ensures itemView.views == Run(old(itemView.views), RevertScript(viewHolder))
    {
      ghost var v0, r0 := itemView.views, itemView.trace;
      Restore(itemView, viewHolder.iconsView, Visible);
      ghost var v1, r1 := itemView.views, itemView.trace;
      Restore(itemView, viewHolder.actionView, Gone);
      RunThen(v0, r0, Restored(viewHolder.iconsView, Visible), v1, r1, Restored(viewHolder.actionView, Gone), itemView.views, itemView.trace);
    }
  }
}
