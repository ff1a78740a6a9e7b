/**
 * The recipient record bound into a drop-down row: the parts of a contact
 * entry that the row binding reads.
 */
module Recipients {
  import opened Wrappers

  /**
   * A recipient entry. Java `null` becomes `None`. The destination label is
   * not kept: it only feeds the type-label lookup, whose result is an input
   * of the binding.
   */
  datatype RecipientEntry = RecipientEntry(
    displayName: Option<string>,
    destination: Option<string>,
    destinationType: int,
    isFirstLevel: bool,
    photoBytes: Option<seq<bv8>>,
    photoThumbnailUri: Option<string>)

  /**
   * The destination type that marks a suggested contact. Its value is
   * defined by the recipient adapter, which is not part of this model, so
   * it is left unspecified here.
   */
  const SuggestedEntryDestinationType: int

  /** The entry is a suggestion the user can accept or reject from the row. */
  predicate IsSuggested(entry: RecipientEntry) {
    entry.destinationType == SuggestedEntryDestinationType
  }
}
