/**
 * The dashboard's job card: the status badge's text and colour, and the
 * skill-tag row, which shows at most four tags and a "+N more" note for the
 * rest. Case mapping is ASCII only.
 */
module JobCard {
  import opened Wrappers
  import opened Text

  const SHOWN_TAGS: nat := 4

  /** The index of the first occurrence of `c` in `s`, if any. */
  function FirstIndex(s: string, c: char): (r: Option<nat>)
    ensures r.None? <==> c !in s
    ensures r.Some? ==> r.value < |s| && s[r.value] == c && forall j :: 0 <= j < r.value ==> s[j] != c
  {
    if s == [] then None
    else if s[0] == c then Some(0)
    else
      var rest := FirstIndex(s[1..], c);
      if rest.None? then None else Some(rest.value + 1)
  }

  /** `s.replace(from, to)` for one-character strings: only the first occurrence is replaced. */
  function ReplaceFirst(s: string, from: char, to: char): (r: string)
    ensures |r| == |s|
  {
    if s == [] then []
    else if s[0] == from then [to] + s[1..]
    else [s[0]] + ReplaceFirst(s[1..], from, to)
  }

  /** The replacement changes the first occurrence, and only it. */
  lemma {:induction false} ReplaceFirstChangesFirstOnly(s: string, from: char, to: char)
    ensures FirstIndex(s, from).None? ==> ReplaceFirst(s, from, to) == s
    ensures FirstIndex(s, from).Some? ==>
      && ReplaceFirst(s, from, to)[FirstIndex(s, from).value] == to
      && forall j :: 0 <= j < |s| && j != FirstIndex(s, from).value ==> ReplaceFirst(s, from, to)[j] == s[j]
  {
    if s != [] && s[0] != from {
      ReplaceFirstChangesFirstOnly(s[1..], from, to);
    }
  }

  /** Without an occurrence there is nothing to replace. */
  lemma {:induction false} ReplaceFirstAbsent(s: string, from: char, to: char)
    requires from !in s
    ensures ReplaceFirst(s, from, to) == s
  {
    if s != [] {
      assert s == [s[0]] + s[1..];
      ReplaceFirstAbsent(s[1..], from, to);
    }
  }

  /** The badge text: the first character upper-cased, then the rest with its first `_` made a space. */
  function StatusLabel(status: string): (text: string)
    requires status != []
    ensures |text| == |status|
    ensures text[0] == UpperChar(status[0])
    ensures text[1..] == ReplaceFirst(status[1..], '_', ' ')
  {
    [UpperChar(status[0])] + ReplaceFirst(status[1..], '_', ' ')
  }

  /** Only the first underscore after the first character becomes a space; later ones stay. */
  lemma StatusLabelUnderscores(status: string, i: nat)
    requires 1 <= i < |status| && status[i] == '_'
    ensures StatusLabel(status)[i] == ' ' <==> forall j :: 1 <= j < i ==> status[j] != '_'
  {
    var rest := status[1..];
    assert rest[i - 1] == '_';
    var k := FirstIndex(rest, '_');
    ReplaceFirstChangesFirstOnly(rest, '_', ' ');
    assert k.Some?;
    if k.value != i - 1 {
      assert k.value < i - 1;
      assert status[k.value + 1] == rest[k.value];
    } else {
      forall j | 1 <= j < i ensures status[j] != '_' {
        assert status[j] == rest[j - 1];
      }
    }
  }

  lemma ReplaceInProgressTail()
    ensures ReplaceFirst("n_progress", '_', ' ') == "n progress"
  {
    assert "n_progress"[1..] == "_progress" && "_progress"[1..] == "progress";
    assert [' '] + "progress" == " progress";
    assert ['n'] + " progress" == "n progress";
  }

  /** The label of the in-progress status. */
  lemma InProgressLabel()
    ensures StatusLabel("in_progress") == "In progress"
  {
    assert StatusLabel("in_progress") == ['I'] + "n progress" by {
      assert "in_progress"[0] == 'i' && "in_progress"[1..] == "n_progress";
      ReplaceInProgressTail();
    }
    assert ['I'] + "n progress" == "In progress";
  }

  /** The label of the accepted status. */
  lemma AcceptedLabel()
    ensures StatusLabel("accepted") == "Accepted"
  {
    assert "accepted"[0] == 'a' && "accepted"[1..] == "ccepted";
    assert '_' !in "ccepted";
    ReplaceFirstAbsent("ccepted", '_', ' ');
  }

  datatype BadgeTone = Green | Blue | Yellow | Gray

  /** The badge, shown only for a non-empty status. */
  function StatusBadge(status: Option<string>): (badge: Option<(string, BadgeTone)>)
    ensures badge.Some? <==> status.Some? && status.value != []
    ensures badge.Some? ==> badge.value.0 == StatusLabel(status.value)
    ensures badge.Some? ==>
      (badge.value.1 == Green <==> status.value == "accepted")
      && (badge.value.1 == Blue <==> status.value == "completed")
      && (badge.value.1 == Yellow <==> status.value == "in_progress")
  {
    if status.None? || status.value == [] then None
    else
      var tone :=
        if status.value == "accepted" then Green
        else if status.value == "completed" then Blue
        else if status.value == "in_progress" then Yellow
        else Gray;
      Some((StatusLabel(status.value), tone))
  }

  /** The tag row: the tags it shows, and how many more there are when that is any. */
  datatype TagRow = TagRow(shown: seq<string>, more: Option<nat>)

  /** The tag row, shown only for a non-empty tag list. */
  function Tags(tags: seq<string>): (row: Option<TagRow>)
    ensures row.Some? <==> tags != []
    ensures row.Some? ==>
      && |row.value.shown| == (if |tags| <= SHOWN_TAGS then |tags| else SHOWN_TAGS)
      && row.value.shown <= tags
    ensures row.Some? ==> (row.value.more.Some? <==> |tags| > SHOWN_TAGS)
    ensures row.Some? && row.value.more.Some? ==> |row.value.shown| + row.value.more.value == |tags|
  {
    if tags == [] then None
    else
      var shown := if |tags| <= SHOWN_TAGS then tags else tags[..SHOWN_TAGS];
      Some(TagRow(shown, if |tags| > SHOWN_TAGS then Some(|tags| - SHOWN_TAGS) else None))
  }

  /** Every tag is either shown or counted, and none twice. */
  lemma TagsAccountedFor(tags: seq<string>)
    requires tags != []
    ensures var row := Tags(tags).value;
      row.shown + tags[|row.shown|..] == tags
      && |tags[|row.shown|..]| == (if row.more.Some? then row.more.value else 0)
  {
  }
}
