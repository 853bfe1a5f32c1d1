/**
 * The key-binding help popup of simple_rss_lib/src/components/help.rs: two
 * aligned columns (keys and descriptions) shown in a fixed-size box.
 */
module HelpComponent {
  import opened Options

  /** Columns between the key column and the description column. */
  const Spacing: nat := 3
  /** Rows reserved for entries. */
  const NrEntries: nat := 6

  /** Every binding the popup can list, in display order. */
  const AllEntries: seq<(string, string)> := [
    ("<Enter>", "Select"),
    ("<Esc> / <q>", "Go Back / Exit"),
    ("<o>", "Open in browser"),
    ("<Space>", "Mark/Unmark item in list as read"),
    ("<Up> / <Down> / <j> / <k>", "Scroll up / down"),
    ("<Left> / <Right> / <h> / <l>", "Change focus between item list and content")
  ]

  /** Whether entry `i` of `AllEntries` is listed under the configuration. */
  predicate Listed(i: nat, disableReadStatus: bool, disableBrowserOpen: bool)
  {
    (i == 2 ==> !disableBrowserOpen) && (i == 3 ==> !disableReadStatus)
  }

  function Count(b: bool): nat { if b then 1 else 0 }

  /** The positions in `AllEntries` listed under the configuration. */
  function ListedIndices(disableReadStatus: bool, disableBrowserOpen: bool): (r: seq<nat>)
    ensures |r| == 4 + Count(!disableBrowserOpen) + Count(!disableReadStatus) <= NrEntries
    ensures forall k :: 0 <= k < |r| ==> r[k] < |AllEntries|
    ensures forall k, l :: 0 <= k < l < |r| ==> r[k] < r[l]
    ensures forall i :: 0 <= i < |AllEntries| ==> (i in r <==> Listed(i, disableReadStatus, disableBrowserOpen))
    ensures r[0] == 0 && r[1] == 1 && r[|r| - 2] == 4 && r[|r| - 1] == 5
  {
    [0, 1]
    + (if !disableBrowserOpen then [2] else [])
    + (if !disableReadStatus then [3] else [])
    + [4, 5]
  }

  /** The entries listed under the configuration, in table order. */
  function Entries(disableReadStatus: bool, disableBrowserOpen: bool): (r: seq<(string, string)>)
    ensures |r| == |ListedIndices(disableReadStatus, disableBrowserOpen)|
    ensures forall k :: 0 <= k < |r| ==> r[k] == AllEntries[ListedIndices(disableReadStatus, disableBrowserOpen)[k]]
  {
    var idx := ListedIndices(disableReadStatus, disableBrowserOpen);
    seq(|idx|, k requires 0 <= k < |idx| => AllEntries[idx[k]])
  }

  function Keys(es: seq<(string, string)>): (r: seq<string>)
    ensures |r| == |es| && forall i :: 0 <= i < |es| ==> r[i] == es[i].0
  {
    seq(|es|, i requires 0 <= i < |es| => es[i].0)
  }

  function Descs(es: seq<(string, string)>): (r: seq<string>)
    ensures |r| == |es| && forall i :: 0 <= i < |es| ==> r[i] == es[i].1
  {
    seq(|es|, i requires 0 <= i < |es| => es[i].1)
  }

  /** The two columns: keys and their descriptions, side by side. */
  method BuildParagraph(disableReadStatus: bool, disableBrowserOpen: bool) returns (keys: seq<string>, descs: seq<string>)
    ensures keys == Keys(Entries(disableReadStatus, disableBrowserOpen))
    ensures descs == Descs(Entries(disableReadStatus, disableBrowserOpen))
  {
    keys := ["<Enter>", "<Esc> / <q>"];
    if !disableBrowserOpen {
      keys := keys + ["<o>"];
    }
    if !disableReadStatus {
      keys := keys + ["<Space>"];
    }
    keys := keys + ["<Up> / <Down> / <j> / <k>", "<Left> / <Right> / <h> / <l>"];

    descs := ["Select", "Go Back / Exit"];
    if !disableBrowserOpen {
      descs := descs + ["Open in browser"];
    }
    if !disableReadStatus {
      descs := descs + ["Mark/Unmark item in list as read"];
    }
    descs := descs + ["Scroll up / down", "Change focus between item list and content"];
  }

  /** "<o>" / "Open in browser" are listed iff browser open is enabled; "<Space>" / "Mark/Unmark ..." iff read status is. */
  lemma OptionalEntriesPresence(disableReadStatus: bool, disableBrowserOpen: bool)
    ensures ("<o>" in Keys(Entries(disableReadStatus, disableBrowserOpen))) <==> !disableBrowserOpen
    ensures ("Open in browser" in Descs(Entries(disableReadStatus, disableBrowserOpen))) <==> !disableBrowserOpen
    ensures ("<Space>" in Keys(Entries(disableReadStatus, disableBrowserOpen))) <==> !disableReadStatus
    ensures ("Mark/Unmark item in list as read" in Descs(Entries(disableReadStatus, disableBrowserOpen))) <==> !disableReadStatus
  {
    var idx := ListedIndices(disableReadStatus, disableBrowserOpen);
    var es := Entries(disableReadStatus, disableBrowserOpen);
    KeysAreDistinct();
    DescsAreDistinct();
    PresentIffListed(es, idx, 2);
    PresentIffListed(es, idx, 3);
  }

  lemma PresentIffListed(es: seq<(string, string)>, idx: seq<nat>, i: nat)
    requires i < |AllEntries| && |es| == |idx|
    requires forall k :: 0 <= k < |idx| ==> idx[k] < |AllEntries| && es[k] == AllEntries[idx[k]]
    requires forall a, b :: 0 <= a < b < |AllEntries| ==> AllEntries[a].0 != AllEntries[b].0
    requires forall a, b :: 0 <= a < b < |AllEntries| ==> AllEntries[a].1 != AllEntries[b].1
    ensures AllEntries[i].0 in Keys(es) <==> i in idx
    ensures AllEntries[i].1 in Descs(es) <==> i in idx
  {
    if i in idx {
      var k :| 0 <= k < |idx| && idx[k] == i;
      assert Keys(es)[k] == AllEntries[i].0;
      assert Descs(es)[k] == AllEntries[i].1;
    }
    if AllEntries[i].0 in Keys(es) {
      var k :| 0 <= k < |es| && Keys(es)[k] == AllEntries[i].0;
      assert idx[k] == i;
    }
    if AllEntries[i].1 in Descs(es) {
      var k :| 0 <= k < |es| && Descs(es)[k] == AllEntries[i].1;
      assert idx[k] == i;
    }
  }

  /** The key column names each binding once, so a key identifies its description. */
  lemma KeysAreDistinct()
    ensures forall i, j :: 0 <= i < j < |AllEntries| ==> AllEntries[i].0 != AllEntries[j].0
  {
  }

  lemma DescsAreDistinct()
    ensures forall i, j :: 0 <= i < j < |AllEntries| ==> AllEntries[i].1 != AllEntries[j].1
  {
  }

  /** Every key fits the key column (28) and every description the description column (42); both widths are attained. */
  lemma ColumnsFitWidths()
    ensures forall i :: 0 <= i < |AllEntries| ==> |AllEntries[i].0| <= 28 && |AllEntries[i].1| <= 42
    ensures |AllEntries[5].0| == 28 && |AllEntries[5].1| == 42
  {
  }

  datatype Size = Size(width: nat, height: nat)

  class Help {
    var open: bool
    const keys: seq<string>
    const descs: seq<string>
    const keysWidth: nat
    const descsWidth: nat

    /** The widths the popup is built with, and one row per entry. */
    predicate Valid()
    {
      keysWidth == 28 && descsWidth == 42 && |keys| == |descs| <= NrEntries
    }

    constructor(disableReadStatus: bool, disableBrowserOpen: bool)
      ensures Valid()
      ensures !open && keysWidth == 28 && descsWidth == 42
      ensures keys == Keys(Entries(disableReadStatus, disableBrowserOpen))
      ensures descs == Descs(Entries(disableReadStatus, disableBrowserOpen))
    {
      var k, d := BuildParagraph(disableReadStatus, disableBrowserOpen);
      open := false;
      keys := k;
      descs := d;
      keysWidth := 28;
      descsWidth := 42;
    }

    method Open()
      modifies this
      ensures open
    {
      open := true;
    }

    method Close()
      modifies this
      ensures !open
    {
      open := false;
    }

    /**
     * The popup's size when open (two border columns and two padding columns
     * around the key column, the spacing and the description column; two
     * border rows and a title row around the entry rows), or None when closed.
     */
    method Draw() returns (popup: Option<Size>)
      ensures popup == if open then Some(Size(keysWidth + descsWidth + Spacing + 2 + 2, NrEntries + 2 + 1)) else None
      ensures popup.Some? <==> open
      ensures Valid() && open ==> popup == Some(Size(77, 9))
      ensures Valid() && popup.Some? ==> |keys| + 3 <= popup.value.height && |descs| + 3 <= popup.value.height
    {
      if !open {
        return None;
      }
      var width := keysWidth + descsWidth + Spacing + 2 + 2;
      var height := NrEntries + 2 + 1;
      popup := Some(Size(width, height));
    }
  }
}
