/**
 * The decisions the renderer takes from the app's state: how each row of
 * the file list is marked and styled, the list's title or the placeholder
 * that replaces an empty list, the player-info texts and the footer.
 *
 * Every function reads an `AppState` value and returns a value, so drawing
 * cannot change the app. Layout, widgets and the help text are not modelled.
 */
module View {
  import opened Wrappers
  import opened Text
  import opened AppSpec

  datatype Color = Green | Yellow | White | Red | Gray
  datatype Style = Style(fg: Color, bold: bool)

  const PlayingStyle := Style(Green, true)
  const SelectedStyle := Style(Yellow, true)
  const PlainStyle := Style(White, false)

  const CursorMarker := "> "
  const NoMarker := "  "

  /** True when the row shows the track marked as playing (compared by name). */
  predicate IsPlayingRow(s: AppState, i: nat)
    requires i < |s.files|
  {
    s.playing == Some(s.files[i].name)
  }

  /** The row's prefix: the playing marker wins over the cursor marker. */
  function RowPrefix(s: AppState, i: nat): (r: string)
    requires i < |s.files|
    ensures r == PlayingMarker <==> IsPlayingRow(s, i)
    ensures r == CursorMarker <==> !IsPlayingRow(s, i) && i == s.selected
    ensures r == NoMarker <==> !IsPlayingRow(s, i) && i != s.selected
  {
    if IsPlayingRow(s, i) then PlayingMarker
    else if i == s.selected then CursorMarker
    else NoMarker
  }

  /** The style of the row's name, with the same precedence as the prefix. */
  function RowStyle(s: AppState, i: nat): (r: Style)
    requires i < |s.files|
    ensures r == PlayingStyle <==> RowPrefix(s, i) == PlayingMarker
    ensures r == SelectedStyle <==> RowPrefix(s, i) == CursorMarker
    ensures r == PlainStyle <==> RowPrefix(s, i) == NoMarker
  {
    if IsPlayingRow(s, i) then PlayingStyle
    else if i == s.selected then SelectedStyle
    else PlainStyle
  }

  datatype Row = Row(prefix: string, name: string, style: Style)

  /** The list items: one row per track, in library order. */
  function Rows(s: AppState): (r: seq<Row>)
    ensures |r| == |s.files|
    ensures forall i :: 0 <= i < |r| ==> r[i].name == s.files[i].name
    ensures forall i :: 0 <= i < |r| ==> (r[i].prefix == PlayingMarker <==> s.playing == Some(s.files[i].name))
    ensures forall i :: 0 <= i < |r| ==> (r[i].prefix == CursorMarker <==> s.playing != Some(s.files[i].name) && i == s.selected)
    ensures forall i :: 0 <= i < |r| ==> (r[i].prefix == NoMarker <==> s.playing != Some(s.files[i].name) && i != s.selected)
    ensures forall i :: 0 <= i < |r| ==> r[i] == Row(RowPrefix(s, i), s.files[i].name, RowStyle(s, i))
  {
    seq(|s.files|, i requires 0 <= i < |s.files| => Row(RowPrefix(s, i), s.files[i].name, RowStyle(s, i)))
  }

  /** "Music Files (position/count)"; with no tracks it is the placeholder's title. */
  function ListTitle(position: nat, count: nat): (r: string)
    ensures position == 0 && count == 0 ==> r == "Music Files (0/0)"
  {
    "Music Files (" + NatToString(position) + "/" + NatToString(count) + ")"
  }

  /**
   * The title reads back: the digits after "Music Files (" are the cursor
   * position, and the digits between '/' and the closing parenthesis are the
   * number of tracks.
   */
  lemma ListTitleReadsBack(position: nat, count: nat)
    ensures var t, x := ListTitle(position, count), NatToString(position);
            && |t| == 15 + |x| + |NatToString(count)|
            && t[..13] == "Music Files ("
            && Value(t[13..13 + |x|]) == position
            && t[13 + |x|] == '/'
            && Value(t[14 + |x|..|t| - 1]) == count
            && t[|t| - 1] == ')'
  {
    var t := ListTitle(position, count);
    var x, y := NatToString(position), NatToString(count);
    assert t == "Music Files (" + x + "/" + y + ")";
    assert t[13..13 + |x|] == x;
    assert t[14 + |x|..|t| - 1] == y;
    ValueOfNatToString(position);
    ValueOfNatToString(count);
  }

  /** The title tells the cursor position and the number of tracks apart. */
  lemma ListTitleInjective(p1: nat, c1: nat, p2: nat, c2: nat)
    requires ListTitle(p1, c1) == ListTitle(p2, c2)
    ensures p1 == p2 && c1 == c2
  {
    var prefix := "Music Files (";
    var x1, y1 := NatToString(p1), NatToString(c1);
    var x2, y2 := NatToString(p2), NatToString(c2);
    var t1, t2 := ListTitle(p1, c1), ListTitle(p2, c2);
    assert t1 == prefix + (x1 + ['/'] + y1) + ")";
    assert t2 == prefix + (x2 + ['/'] + y2) + ")";
    assert x1 + ['/'] + y1 == t1[|prefix|..|t1| - 1];
    assert x2 + ['/'] + y2 == t2[|prefix|..|t2| - 1];
    DigitsThenSeparator(x1, y1, x2, y2, '/');
    NatToStringInjective(p1, p2);
    NatToStringInjective(c1, c2);
  }

  /**
   * The file-list panel: a placeholder when the library is empty, otherwise
   * the rows, the title and the list state that picks the highlighted row.
   */
  datatype Panel =
    | Placeholder(title: string)
    | List(title: string, rows: seq<Row>, highlighted: Option<nat>)

  function FileList(s: AppState): (r: Panel)
    ensures r.Placeholder? <==> s.files == []
    ensures r.Placeholder? ==> r.title == ListTitle(0, 0)
    ensures r.List? ==> r.title == ListTitle(s.selected + 1, |s.files|) && r.rows == Rows(s)
    ensures r.List? ==> r.highlighted == s.listState
    ensures Consistent(s) && r.List? ==> r.highlighted == Some(s.selected) && s.selected + 1 <= |s.files|
  {
    if s.files == [] then Placeholder("Music Files (0/0)")
    else List(ListTitle(s.selected + 1, |s.files|), Rows(s), s.listState)
  }

  /** The status line of the info panel. */
  function PlayerStatus(s: AppState): (r: string)
    ensures r == "Stopped" <==> s.playing.None?
    ensures r == "Paused" <==> s.playing.Some? && s.paused
    ensures r == "Playing" <==> s.playing.Some? && !s.paused
  {
    if s.playing.Some? then (if s.paused then "Paused" else "Playing") else "Stopped"
  }

  function PlayerStatusColor(s: AppState): (r: Color)
    ensures r == Red <==> PlayerStatus(s) == "Stopped"
    ensures r == Yellow <==> PlayerStatus(s) == "Paused"
    ensures r == Green <==> PlayerStatus(s) == "Playing"
  {
    if s.playing.Some? then (if s.paused then Yellow else Green) else Red
  }

  /** The now-playing line: the playing name (listed or not), or a placeholder. */
  function NowPlaying(s: AppState): (r: string)
    ensures s.playing.Some? ==> r == PlayingMarker + s.playing.value
    ensures s.playing.None? ==> r == "No music playing"
  {
    match s.playing
    case Some(name) => PlayingMarker + name
    case None => "No music playing"
  }

  /** The volume line: the saturating percentage of the volume. */
  function VolumeLine(s: AppState): (r: string)
    ensures Consistent(s) ==> r == NatToString(10 * s.volume) + "%"
  {
    NatToString(Percent(s.volume)) + "%"
  }

  datatype Footer = Footer(text: string, color: Color)

  /** The footer: the status message as it is, green while something is marked playing. */
  function FooterLine(s: AppState): (r: Footer)
    ensures r.text == s.status
    ensures r.color == Green <==> s.playing.Some?
    ensures r.color == Yellow <==> s.playing.None?
  {
    Footer(s.status, if s.playing.Some? then Green else Yellow)
  }

  /** Every row listed under the playing name is marked, duplicates included. */
  lemma EveryNamesakeMarked(s: AppState, i: nat, j: nat)
    requires i < |s.files| && j < |s.files| && s.files[i].name == s.files[j].name
    requires RowPrefix(s, i) == PlayingMarker
    ensures RowPrefix(s, j) == PlayingMarker && RowStyle(s, j) == PlayingStyle
  {
  }

  /** A playing name that is not in the library marks no row. */
  lemma UnlistedPlayingMarksNothing(s: AppState)
    requires s.playing.Some?
    requires forall i :: 0 <= i < |s.files| ==> s.files[i].name != s.playing.value
    ensures forall i :: 0 <= i < |Rows(s)| ==> Rows(s)[i].prefix != PlayingMarker
    ensures s.files != [] && Consistent(s) ==> Rows(s)[s.selected].prefix == CursorMarker
  {
  }

  /** Exactly one row carries the cursor marker unless the cursor row is the playing track. */
  lemma OneCursorRow(s: AppState, i: nat)
    requires Consistent(s) && i < |s.files|
    requires Rows(s)[i].prefix == CursorMarker
    ensures i == s.selected
    ensures forall j :: 0 <= j < |s.files| && j != i ==> Rows(s)[j].prefix != CursorMarker
  {
  }
}
