# Drop-down chip row binding

A model of `DropdownChipLayouter`, the class of the android-chips library
that inflates the rows of the recipient drop-down list and binds a
`RecipientEntry` into them. Given an entry, the adapter type that asks for
the row (`BASE_RECIPIENT`, `RECIPIENT_ALTERNATES` or `SINGLE_RECIPIENT`) and
the row's list position, `bindView` decides which display name, destination
and destination-type label the row shows, whether the photo is shown and
where it comes from, and whether the suggestion add/delete buttons appear.
It then writes those decisions into the row's sub-views through a fixed
sequence of `setVisibility`, `setText`, `setAlpha`, `setTag` and image
calls, in which later writes override earlier ones.

Layout of the project:

- `wrappers.dfy`: `Option` and `Result`.
- `recipients.dfy`: the recipient entry (`null` is `None`) and the test for a
  suggested entry.
- `views.dfy`: the row. `RowView` is a class whose `views` field maps the id
  of each sub-view the row has to that sub-view's state (visibility, text,
  image, alpha, tag). A sub-view is present exactly when its id is a key, so
  `findViewById` is a key lookup and returns the same view for the same id.
  The ghost field `trace` records every write, in order. `Run` gives the
  meaning of a sequence of writes; `Replay` is the same thing seen from one
  sub-view.
- `row_binding.dfy`: the adapter types and the view holder. `Presentation`
  is the decision table. `BindScript` lists the writes of a successful bind,
  in order. `BoundState` is the closed form of the row afterwards, sub-view
  by sub-view. `BindScriptYieldsBoundState` proves that running the writes
  gives that closed form.
- `dropdown_chip_layouter.dfy`: the layouter class. Its methods perform the
  writes on a `RowView`. Each one is proved to leave the row as `Run` of its
  writes says. `BindView` is also proved to leave it as `BoundState` says.
- `bound_row_properties.dfy`: the decision table case by case, and what a
  bound row shows. This covers the overrides: the photo shown again after
  being hidden, and the top divider shown again after being hidden.

Calls into the toolkit are inputs:

- `getDestinationType` (a resource lookup, then upper-casing) is the string `typeLabel`.
- `Rfc822Tokenizer.tokenize` is the layouter's function `tokenize` from a destination to the addresses it finds.
- `LayoutInflater.inflate` is the function `inflate` from layout to the sub-views of a fresh row.
- `BitmapFactory.decodeByteArray` is represented by the bytes it decodes.
- The delete drawable is an opaque handle.

Two inputs make the Java code throw before any visibility, text, image, alpha or tag write:

- a single-recipient entry whose destination is null (`tokenize(null)`);
- a destination in which the tokenizer finds no address (`[0]` of an empty array).

The model returns `Err(NullDestination)` and `Err(NoAddressToken)` for these and leaves the row untouched.

`bindView` dereferences the photo view without a null check (lines 287 and
297). The layout contract in the comment at lines 425-427 says every row
layout has a photo view. `BindView` therefore requires `Icon` in the row.

## Model

| member | source | states |
|---|---|---|
| Chips.ItemLayoutResId | library/chips/src/com/android/ex/chips/DropdownChipLayouter.java:429-438 | the autocomplete item layout exactly for BASE_RECIPIENT, the recipient drop-down item for the other two types |
| Chips.AlternateItemLayoutResId | library/chips/src/com/android/ex/chips/DropdownChipLayouter.java:447-456 | the same choice of layout, and it agrees with ItemLayoutResId on every adapter type |
| Chips.DropdownChipLayouter.constructor | library/chips/src/com/android/ex/chips/DropdownChipLayouter.java:78-81 | the layouter keeps the inflater it is given (the context is not modelled); the RFC 822 tokenizer that line 270 calls is held beside it as a function |
| Chips.DropdownChipLayouter.TagAndShow | library/chips/src/com/android/ex/chips/DropdownChipLayouter.java:279-286 | a present suggestion button is tagged with the entry and then made VISIBLE, an absent one is untouched; the writes are Tagged and the row is Run of them |
| Chips.DropdownChipLayouter.Hide | library/chips/src/com/android/ex/chips/DropdownChipLayouter.java:291-296 | a present suggestion button is made GONE, an absent one is untouched; the writes are Hidden and the row is Run of them |
| Chips.DropdownChipLayouter.Restore | library/chips/src/com/android/ex/chips/DropdownChipLayouter.java:302-309 | a present layout gets alpha 1 and then the given visibility, an absent one is untouched; the writes are Restored and the row is Run of them |
| Chips.DropdownChipLayouter.SetPhotoVisibility | library/chips/src/com/android/ex/chips/DropdownChipLayouter.java:287-297 | the single write is setVisibility on the photo view, and the row is Run of it |
| Chips.DropdownChipLayouter.NewView | library/chips/src/com/android/ex/chips/DropdownChipLayouter.java:317-319 | a fresh row with no writes, holding the sub-views of the item layout for the adapter type |
| Chips.DropdownChipLayouter.ReuseOrInflateView | library/chips/src/com/android/ex/chips/DropdownChipLayouter.java:324-335 | a non-null convertView is returned as it is and nothing is inflated; otherwise a fresh row is inflated from the autocomplete layout for BASE_RECIPIENT and from the recipient drop-down layout for the other types |
| Chips.DropdownChipLayouter.BindTextToView | library/chips/src/com/android/ex/chips/DropdownChipLayouter.java:340-351 | an absent view is untouched; null text makes the view GONE and keeps its text; other text is set and the view made VISIBLE; the writes are TextScript, and the row is Run of them |
| Chips.DropdownChipLayouter.BindIconToView | library/chips/src/com/android/ex/chips/DropdownChipLayouter.java:357-394 | an absent view is untouched; with showImage the view shows PhotoSource and is VISIBLE; without it the view is GONE and keeps its image; the row is Run of IconScript |
| Chips.DropdownChipLayouter.BindDrawableToDeleteView | library/chips/src/com/android/ex/chips/DropdownChipLayouter.java:396-404 | an absent view is untouched; a null drawable makes the view GONE with no image; otherwise the drawable is set and the visibility kept, so the button is never made VISIBLE |
| Chips.DropdownChipLayouter.BindView | library/chips/src/com/android/ex/chips/DropdownChipLayouter.java:228-312 | fails exactly when Presentation fails, with the same error and without touching a reused row; otherwise it returns the reused row or a fresh one, appends exactly the writes of BindScript in order, and leaves the row as BoundState says |
| Chips.DropdownChipLayouter.HideInformation | library/chips/src/com/android/ex/chips/DropdownChipLayouter.java:230-272 | the locals chosen through the switch are Presentation's fields, or its error; the only write is the base list's top-divider write |
| Chips.DropdownChipLayouter.BindFields | library/chips/src/com/android/ex/chips/DropdownChipLayouter.java:274-309 | the writes after the switch are FieldsScript, in order, and the row is Run of them |
| Chips.DropdownChipLayouter.BindTexts | library/chips/src/com/android/ex/chips/DropdownChipLayouter.java:274-277 | the three text lines are bound in order: name, destination, type label |
| Chips.DropdownChipLayouter.BindSuggestionOrPhoto | library/chips/src/com/android/ex/chips/DropdownChipLayouter.java:278-298 | the suggestion branch for a suggested entry and the photo branch otherwise; the writes are SuggestionScript |
| Chips.DropdownChipLayouter.ShowSuggestionButtons | library/chips/src/com/android/ex/chips/DropdownChipLayouter.java:278-287 | each present suggestion button is tagged with the entry and made VISIBLE, then the photo view is made GONE |
| Chips.DropdownChipLayouter.ShowPhoto | library/chips/src/com/android/ex/chips/DropdownChipLayouter.java:288-298 | the photo is bound, each present suggestion button made GONE, then the photo view made VISIBLE |
| Chips.DropdownChipLayouter.RevertAnimations | library/chips/src/com/android/ex/chips/DropdownChipLayouter.java:301-309 | the icons layout gets alpha 1 and VISIBLE, then the action layout gets alpha 1 and GONE |
| RowBinding.FindViewById | library/chips/src/com/android/ex/chips/DropdownChipLayouter.java:522-537 | a lookup finds a view exactly when the row has one with that id, and finds that view |
| RowBinding.NewViewHolder | library/chips/src/com/android/ex/chips/DropdownChipLayouter.java:521-538 | the top divider and the icons layout are the same view, since both are looked up with the icons-layout id; the holder has a photo view exactly when the row has one |
| RowBinding.Presentation | library/chips/src/com/android/ex/chips/DropdownChipLayouter.java:230-272 | only a single-recipient bind fails, exactly when the destination is null or has no address; a hidden photo goes with a hidden name; the name is the entry's name or its destination; the destination is the entry's own, or the first address for a single recipient; the type label shows except on a single-recipient row; the base list never repeats one text on the name and destination lines |
| RowBinding.PhotoSource | library/chips/src/com/android/ex/chips/DropdownChipLayouter.java:363-389 | a decoded bitmap exactly for BASE_RECIPIENT with non-null, non-empty photo bytes; the thumbnail URI exactly for RECIPIENT_ALTERNATES with a non-null URI; the default contact picture in every other case |
| Views.LastVisibilityWriteWins | library/chips/src/com/android/ex/chips/DropdownChipLayouter.java:287-309 | a sub-view ends with the visibility of the last setVisibility call addressed to it, whatever earlier calls set |
| Views.RunAt | library/chips/src/com/android/ex/chips/DropdownChipLayouter.java:274-309 | writes act on each sub-view independently: each sub-view ends as its own writes, in order, leave it |
| RowBindingProofs.ReplayDivider | library/chips/src/com/android/ex/chips/DropdownChipLayouter.java:258-261 | on the base list, the top divider is made VISIBLE at position 0 and GONE elsewhere; nothing else is written |
| RowBindingProofs.ReplayText | library/chips/src/com/android/ex/chips/DropdownChipLayouter.java:340-351 | seen from one sub-view, binding a text line is BoundText on that line and nothing elsewhere |
| RowBindingProofs.ReplayIcon | library/chips/src/com/android/ex/chips/DropdownChipLayouter.java:357-394 | seen from one sub-view, binding the photo shows PhotoSource or hides the view, and touches nothing else |
| RowBindingProofs.ReplaySuggestion | library/chips/src/com/android/ex/chips/DropdownChipLayouter.java:278-298 | seen from one sub-view, the suggestion branch hides the photo and shows the tagged buttons; the photo branch hides the buttons and ends with the photo VISIBLE even when showImage hid it |
| RowBindingProofs.ReplayDelete | library/chips/src/com/android/ex/chips/DropdownChipLayouter.java:396-404 | seen from one sub-view, the delete button is hidden with no image when there is no drawable and otherwise shows the drawable |
| RowBindingProofs.ReplayRevert | library/chips/src/com/android/ex/chips/DropdownChipLayouter.java:301-309 | seen from one sub-view, the icons layout ends alpha 1 and VISIBLE, the action layout alpha 1 and GONE |
| RowBindingProofs.ReplayBind | library/chips/src/com/android/ex/chips/DropdownChipLayouter.java:258-309 | seen from one sub-view, all the writes of a bind leave it as BoundView says |
| RowBindingProofs.BindScriptYieldsBoundState | library/chips/src/com/android/ex/chips/DropdownChipLayouter.java:258-309 | running the writes of a bind on a row with a photo view gives BoundState: each sub-view's final state in closed form, after every later write has overridden the earlier ones |
| BoundRowProperties.BaseNameFallsBack | library/chips/src/com/android/ex/chips/DropdownChipLayouter.java:242-256 | base list, first-level entry whose name is empty or equal to its destination: the destination is shown as the name and the destination line is hidden |
| BoundRowProperties.BaseOwnName | library/chips/src/com/android/ex/chips/DropdownChipLayouter.java:242-256 | base list, first-level entry with a name of its own: name, destination, type label and photo are all shown |
| BoundRowProperties.BaseNotFirstLevel | library/chips/src/com/android/ex/chips/DropdownChipLayouter.java:242-256 | base list, entry that is not first-level: the name is hidden, showImage is false, and the destination stays |
| BoundRowProperties.AlternatesByPosition | library/chips/src/com/android/ex/chips/DropdownChipLayouter.java:263-268 | alternates list: position 0 keeps name and photo; every other position hides the name and sets showImage false |
| BoundRowProperties.SingleRecipientFirstAddress | library/chips/src/com/android/ex/chips/DropdownChipLayouter.java:269-271 | single-recipient list: the destination becomes the first tokenized address and the type line is hidden; a null destination or one with no address is an error |
| BoundRowProperties.TextLinesAfterBind | library/chips/src/com/android/ex/chips/DropdownChipLayouter.java:274-277 | after a bind each present text line shows its text and is VISIBLE, or is GONE with its old text kept |
| BoundRowProperties.SuggestionOrPhotoAfterBind | library/chips/src/com/android/ex/chips/DropdownChipLayouter.java:278-298 | after a bind a suggested entry has its present buttons tagged and VISIBLE and its photo GONE; any other entry has the buttons GONE and the photo VISIBLE, showing PhotoSource when showImage and the old image otherwise |
| BoundRowProperties.PhotoShownEvenWhenHidden | library/chips/src/com/android/ex/chips/DropdownChipLayouter.java:289-297 | for an entry that is not suggested and has showImage false, the writes include making the photo view GONE, and the row still ends with it VISIBLE and its old image |
| BoundRowProperties.DividerShownOnEveryRow | library/chips/src/com/android/ex/chips/DropdownChipLayouter.java:259-304 | on the base list below position 0 the writes hide the top divider, yet on every row of every list it ends VISIBLE with alpha 1, because it is the icons layout (both are looked up with the same id at lines 527 and 536) |
| BoundRowProperties.DividerShownByLastWrite | library/chips/src/com/android/ex/chips/DropdownChipLayouter.java:302-309 | the reset's VISIBLE on the icons layout is the last visibility write addressed to it, with only the action layout's reset after it, so the row ends with the icons layout VISIBLE |
| BoundRowProperties.ActionLayoutHiddenAfterBind | library/chips/src/com/android/ex/chips/DropdownChipLayouter.java:306-309 | after a bind the action layout is GONE with alpha 1 |
| BoundRowProperties.DeleteButtonNeverShown | library/chips/src/com/android/ex/chips/DropdownChipLayouter.java:396-404 | after a bind the delete button is VISIBLE only if it already was; with no drawable it is GONE with no image, otherwise it shows the drawable |
| BoundRowProperties.BoundViewVisibility | library/chips/src/com/android/ex/chips/DropdownChipLayouter.java:258-309 | every sub-view except the delete button gets a visibility after a bind that does not depend on the one it had |
| BoundRowProperties.VisibilityDecidedByBind | library/chips/src/com/android/ex/chips/DropdownChipLayouter.java:258-309 | two rows with the same sub-views, bound the same way, end with the same visibility on every sub-view except the delete button, whatever an earlier bind left in a reused row |
| BoundRowProperties.BoundViewIdempotent | library/chips/src/com/android/ex/chips/DropdownChipLayouter.java:258-309 | binding a bound sub-view again the same way leaves it as it is |
| BoundRowProperties.RebindChangesNothing | library/chips/src/com/android/ex/chips/DropdownChipLayouter.java:228-312 | binding a bound row again with the same entry, position and fields changes nothing |
| BoundRowProperties.BaseFallbackRow | library/chips/src/com/android/ex/chips/DropdownChipLayouter.java:242-276 | base list, first-level entry whose name falls back: the name line shows the destination and the destination line is GONE |
| BoundRowProperties.AlternatesNameHiddenRow | library/chips/src/com/android/ex/chips/DropdownChipLayouter.java:263-275 | alternates list below position 0: the name line is GONE |
| BoundRowProperties.SingleRecipientRow | library/chips/src/com/android/ex/chips/DropdownChipLayouter.java:269-277 | single-recipient list: the destination line shows the first address and the type line is GONE |

## Left out

- `animateSuggestion` (lines 95-203) is not modelled. It sequences platform animators with float alpha tweens, delays and asynchronous callbacks.
- The click listeners are not modelled (lines 58-70, the listener set at 405-414, and the ones the view holder sets at 529-535). They are event callbacks into caller-supplied interfaces.
- The 6-argument `bindView` (lines 219-222) is not modelled. It only passes a null delete drawable to the 7-argument one, which is `BindView` with `deleteDrawable` None.
- `getDestinationType` (lines 417-420) is not modelled. It is a resource lookup followed by upper-casing, and its result is the input `typeLabel`.
- `LayoutInflater.inflate` is the input function `inflate`. The `parent` view group is not modelled.
- `BitmapFactory.decodeByteArray` is not modelled. A decoded photo is represented by its bytes, so a decode that fails and yields a null bitmap is not distinguished.
- `Rfc822Tokenizer.tokenize` is not modelled. It is the layouter's uninterpreted function `tokenize`, applied to the entry's destination.
- The id getters (lines 462-503) are constants in the model. A subclass overriding them is not modelled.
- The aliasing of sub-views follows from their ids only. Layouts that reuse one id for two different views are not modelled.
- `BaseRecipientAdapter.SUGGESTED_ENTRY_DESTINATION_TYPE` is not part of this model. It is an unspecified constant, so the properties hold for any value it has.
- The `constraint` argument of `bindView` is not modelled, because the binding never reads it.
- The list position is an unbounded integer. The source only compares it with 0, so 32-bit width plays no part.
- Alpha is a real number. Only the value 1 is ever written.
- Chips.DropdownChipLayouter.BindView: the statements of `bindView` are split across helper methods. `HideInformation` holds the switch. `BindFields`, `BindTexts`, `BindSuggestionOrPhoto`, `ShowSuggestionButtons`, `ShowPhoto` and `RevertAnimations` hold the writes, in the same order. `BindView` requires the row to have a photo view, which the layout contract at lines 425-427 demands. Without one the source throws at line 287 or 297.
- The Java exceptions for a null destination or no address on a single-recipient row are `Err` results. The exception types are not modelled.
