/** Bounds and safety of the per-run source names (crates/resticpal-core/src/status.rs). */
module Status {
  import opened Common

  const MAX_BACKUP_FAILED_ITEMS: nat := 100
  const MAX_BACKUP_FAILED_ITEM_BYTES: nat := 4 * 1024

  /** A source name, as the UTF-8 bytes of a Rust `String`. */
  type Item = seq<byte>

  /** A control character of Unicode category Cc starts at `i`. */
  predicate ControlAt(item: Item, i: nat)
    requires i < |item|
  {
    || item[i] < 0x20
    || item[i] == 0x7F
    || (item[i] == 0xC2 && i + 1 < |item| && 0x80 <= item[i + 1] <= 0x9F)
  }

  /** One of U+202A..U+202E or U+2066..U+2069 starts at `i`. */
  predicate BidiOverrideAt(item: Item, i: nat)
    requires i < |item|
  {
    && item[i] == 0xE2
    && i + 2 < |item|
    && ((item[i + 1] == 0x80 && 0xAA <= item[i + 2] <= 0xAE) || (item[i + 1] == 0x81 && 0xA6 <= item[i + 2] <= 0xA9))
  }

  predicate IsSafe(item: Item) {
    && 1 <= |item| <= MAX_BACKUP_FAILED_ITEM_BYTES
    && forall i :: 0 <= i < |item| ==> !ControlAt(item, i) && !BidiOverrideAt(item, i)
  }

  predicate AllSafe(items: seq<Item>) {
    forall i :: 0 <= i < |items| ==> IsSafe(items[i])
  }
}
