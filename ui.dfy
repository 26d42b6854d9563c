/** The portfolio carousel of linebot/api/line/ui.go: a star rating per work, three note
    sections, the action buttons, newest-first ordering and chunking into carousels of ten.
    Flex message layout attributes (sizes, colours, margins) are not modelled. */
module UI {
  import opened Wrappers
  import T = Types
  import P = Postback
  import U = Users
  import K = TimeKeys
  import L = LineClient

  const GoldStar := "https://scdn.line-apps.com/n/channel_devcenter/img/fx/review_gold_star_28.png"
  const GrayStar := "https://scdn.line-apps.com/n/channel_devcenter/img/fx/review_gray_star_28.png"

  /** The number of gold stars for a grade: ⌊grade / 20⌋, clamped to 0..5. */
  function GoldCount(grade: real): (n: int)
    ensures 0 <= n <= 5
  {
    var f := (grade / 20.0).Floor;
    if f < 0 then 0 else if f > 5 then 5 else f
  }

  /** Five icons, the gold ones first. */
  function StarIcons(grade: real): (icons: seq<string>)
    ensures |icons| == 5
  {
    seq(5, i requires 0 <= i < 5 => if i < GoldCount(grade) then GoldStar else GrayStar)
  }

  /** getPortfolioRating: five icons, the i-th gold while the remaining rating is at least 20. */
  method GetPortfolioRating(work: U.Work) returns (icons: seq<string>)
    ensures icons == StarIcons(work.gradingOutcome.totalGrade)
  {
    var grade := work.gradingOutcome.totalGrade;
    var rating := grade;
    icons := [];
    var i := 0;
    while i < 5
      invariant 0 <= i <= 5
      invariant rating == grade - 20.0 * i as real
      invariant icons == StarIcons(grade)[..i]
    {
      var url := GrayStar;
      if rating >= 20.0 {
        url := GoldStar;
      }
      GoldIff(grade, i);
      icons := icons + [url];
      rating := rating - 20.0;
      i := i + 1;
    }
  }

  /** Icon i is gold iff grade − 20·i ≥ 20. */
  lemma GoldIff(grade: real, i: int)
    requires 0 <= i < 5
    ensures grade - 20.0 * i as real >= 20.0 <==> i < GoldCount(grade)
  {
    var f := (grade / 20.0).Floor;
    if grade - 20.0 * i as real >= 20.0 {
      assert grade / 20.0 >= (i + 1) as real;
      assert f >= i + 1;
    } else {
      assert grade / 20.0 < (i + 1) as real;
      assert f < i + 1;
    }
  }

  /** A grade g ≥ 0 shows min(5, ⌊g/20⌋) gold stars, all before the gray ones. */
  lemma GoldStarsForGrade(grade: real)
    requires grade >= 0.0
    ensures var n := (grade / 20.0).Floor;
      var k := if n < 5 then n else 5;
      (forall i :: 0 <= i < k ==> StarIcons(grade)[i] == GoldStar) &&
      (forall i :: k <= i < 5 ==> StarIcons(grade)[i] == GrayStar)
  {
    var n := (grade / 20.0).Floor;
    assert n >= 0 by {
      assert grade / 20.0 >= 0.0;
    }
    assert GoldCount(grade) == if n < 5 then n else 5;
  }

  /** A labelled note; an empty one shows the "無內容" placeholder. */
  datatype NoteSection = NoteSection(heading: string, text: string)

  const NoContent := "無內容"

  function NotesSection(heading: string, content: string): (n: NoteSection)
    ensures n.heading == heading && n.text != ""
    ensures content != "" ==> n.text == content
  {
    NoteSection(heading, if content == "" then NoContent else content)
  }

  /** A footer button and the postback payload it sends. */
  datatype Button = Button(caption: string, data: P.Payload)

  /** createButtonActions: edit reflection, edit preview note, ask AI, play the video, and
      play the comparison video (a nil slot when the work has none). */
  function CreateButtonActions(bucket: string, work: U.Work, skill: string, handedness: string): (b: seq<Option<Button>>)
    ensures |b| == 5
    ensures forall i :: 0 <= i < 4 ==> b[i].Some?
    ensures b[4].Some? <==> work.skeletonComparisonVideo != ""
    ensures b[0].value.data == P.WritingNotePostback("writing_notes", work.dateTime, "writing_reflection", skill)
    ensures b[1].value.data == P.WritingNotePostback("writing_notes", work.dateTime, "writing_preview_note", skill)
    ensures b[2].value.data == P.AnalyzingWithGPTPostback(handedness, work.dateTime, skill)
    ensures b[3].value.data.VideoPostback? && L.HasScheme(b[3].value.data.videoId)
    ensures b[4].Some? ==> b[4].value.data.VideoPostback?
  {
    NoteLabels();
    var notes := T.UserStateString(T.WritingNotes).value;
    var video := P.VideoPostback(L.AssetURL(bucket, work.skeletonVideo), L.AssetURL(bucket, work.thumbnail));
    var compare :=
      if work.skeletonComparisonVideo != "" then
        Some(Button("查看比較影片",
          P.VideoPostback(L.AssetURL(bucket, work.skeletonComparisonVideo), L.AssetURL(bucket, work.thumbnail))))
      else None;
    [Some(Button("更新學習反思",
        P.WritingNotePostback(notes, work.dateTime, T.ActionStepString(T.WritingReflection).value, skill))),
     Some(Button("更新課前動作檢測要點",
        P.WritingNotePostback(notes, work.dateTime, T.ActionStepString(T.WritingPreviewNote).value, skill))),
     Some(Button("詢問AI建議", P.AnalyzingWithGPTPostback(handedness, work.dateTime, skill))),
     Some(Button("查看影片", video)),
     compare]
  }

  /** The state and step names the note buttons send. */
  lemma NoteLabels()
    ensures T.UserStateString(T.WritingNotes) == Some("writing_notes")
    ensures T.ActionStepString(T.WritingReflection) == Some("writing_reflection")
    ensures T.ActionStepString(T.WritingPreviewNote) == Some("writing_preview_note")
  {
  }

  /** One carousel bubble. */
  datatype Bubble = Bubble(
    hero: string,
    date: string,
    stars: seq<string>,
    grade: real,
    notes: seq<NoteSection>,
    footer: seq<Option<Button>>)

  /** What time.Format("2006-01-02") prints for the parsed key (the zero time when it does not parse). */
  function DisplayDate(key: string): string {
    var d := K.DatePart(key);
    if d.Some? then d.value else "0001-01-01"
  }

  /** getCarouselItem. */
  function CarouselItem(bucket: string, work: U.Work, skill: string, handedness: string, showBtns: bool): (b: Bubble)
    ensures b.footer == (var all := CreateButtonActions(bucket, work, skill, handedness);
                         if showBtns then all else all[2..])
    ensures |b.footer| == if showBtns then 5 else 3
  {
    var buttons := CreateButtonActions(bucket, work, skill, handedness);
    Bubble(
      L.AssetURL(bucket, work.thumbnail),
      DisplayDate(work.dateTime),
      StarIcons(work.gradingOutcome.totalGrade),
      work.gradingOutcome.totalGrade,
      [NotesSection("需調整細節：", work.aiNote),
       NotesSection("課前動作檢測要點：", work.previewNote),
       NotesSection("學習反思：", work.reflection)],
      if showBtns then buttons else buttons[2..])
  }

  /** Without buttons a bubble offers no note editing: only ask-AI, the video and the comparison. */
  lemma FooterWithoutButtonsCannotEditNotes(bucket: string, work: U.Work, skill: string, handedness: string)
    ensures var b := CarouselItem(bucket, work, skill, handedness, false);
      forall i :: 0 <= i < |b.footer| && b.footer[i].Some? ==> !b.footer[i].value.data.WritingNotePostback?
  {
    var all := CreateButtonActions(bucket, work, skill, handedness);
    var b := CarouselItem(bucket, work, skill, handedness, false);
    forall i | 0 <= i < |b.footer| && b.footer[i].Some? ensures !b.footer[i].value.data.WritingNotePostback? {
      assert b.footer[i] == all[i + 2];
    }
  }

  /** The notes always read AI note, preview note, reflection, with every note visible. */
  lemma NotesInOrder(bucket: string, work: U.Work, skill: string, handedness: string, showBtns: bool)
    ensures var b := CarouselItem(bucket, work, skill, handedness, showBtns);
      |b.notes| == 3 &&
      (work.aiNote != "" ==> b.notes[0].text == work.aiNote) &&
      (work.previewNote != "" ==> b.notes[1].text == work.previewNote) &&
      (work.reflection != "" ==> b.notes[2].text == work.reflection) &&
      forall i :: 0 <= i < 3 ==> b.notes[i].text != ""
  {
  }

  // ---------------------------------------------------------------- ordering

  /** The instant a work's key stands for, as an integer. */
  function SortKey(w: U.Work): int {
    K.Rank(K.KeyStamp(w.dateTime))
  }

  /** `s` is ordered by decreasing `key`, as sort.Slice leaves it for a "greater" comparator. */
  predicate Descending<X>(key: X -> int, s: seq<X>) {
    forall i, j :: 0 <= i < j < |s| ==> key(s[i]) >= key(s[j])
  }

  predicate NewestFirst(s: seq<U.Work>) {
    Descending(SortKey, s)
  }

  /** `keys` lists every key of the map exactly once. */
  ghost predicate Enumerates(works: map<string, U.Work>, keys: seq<string>) {
    (forall i, j :: 0 <= i < j < |keys| ==> keys[i] != keys[j]) &&
    (forall k :: k in works <==> k in keys)
  }

  function ValuesAt(works: map<string, U.Work>, keys: seq<string>): (vs: seq<U.Work>)
    ensures |vs| == |keys|
  {
    seq(|keys|, i requires 0 <= i < |keys| => U.Lookup(works, keys[i]))
  }

  /** maps.Values: the map's works in some order. */
  method MapValues(works: map<string, U.Work>) returns (values: seq<U.Work>, ghost keys: seq<string>)
    ensures Enumerates(works, keys) && |keys| == |works|
    ensures values == ValuesAt(works, keys)
  {
    var remaining := works.Keys;
    values, keys := [], [];
    while remaining != {}
      invariant remaining <= works.Keys
      invariant forall k :: k in works ==> (k in remaining <==> k !in keys)
      invariant forall k :: k in keys ==> k in works
      invariant forall i, j :: 0 <= i < j < |keys| ==> keys[i] != keys[j]
      invariant |keys| + |remaining| == |works|
      invariant values == ValuesAt(works, keys)
      decreases |remaining|
    {
      var k :| k in remaining;
      keys := keys + [k];
      values := values + [works[k]];
      remaining := remaining - {k};
    }
  }

  /** Places `w` before the first element whose key is smaller. */
  function InsertDescending<X>(key: X -> int, w: X, s: seq<X>): (r: seq<X>)
    requires Descending(key, s)
    ensures Descending(key, r) && multiset(r) == multiset(s) + multiset{w}
    ensures |r| == |s| + 1 && (r[0] == w || (s != [] && r[0] == s[0]))
  {
    if s == [] then [w]
    else if key(w) >= key(s[0]) then
      ConsDescending(key, w, s);
      [w] + s
    else
      var t := InsertDescending(key, w, s[1..]);
      InsertBehind(key, w, s, t);
      [s[0]] + t
  }

  /** A key smaller than the head's goes behind it: the head then still leads. */
  lemma InsertBehind<X>(key: X -> int, w: X, s: seq<X>, t: seq<X>)
    requires s != [] && Descending(key, s) && key(w) < key(s[0])
    requires Descending(key, t) && multiset(t) == multiset(s[1..]) + multiset{w}
    requires t != [] && (t[0] == w || (s[1..] != [] && t[0] == s[1..][0]))
    ensures Descending(key, [s[0]] + t) && multiset([s[0]] + t) == multiset(s) + multiset{w}
  {
    assert s == [s[0]] + s[1..];
    ConsDescending(key, s[0], t);
  }

  /** A head no smaller than the next element keeps a descending run descending. */
  lemma ConsDescending<X>(key: X -> int, x: X, t: seq<X>)
    requires Descending(key, t) && (t == [] || key(x) >= key(t[0]))
    ensures Descending(key, [x] + t)
  {
  }

  /** What sort.Slice leaves for a "key i is greater than key j" comparator: any
      descending permutation is a correct result, and this is one of them. */
  function SortDescending<X>(key: X -> int, s: seq<X>): (r: seq<X>)
    ensures Descending(key, r) && multiset(r) == multiset(s)
  {
    if s == [] then []
    else
      var t := SortDescending(key, s[1..]);
      assert s == [s[0]] + s[1..];
      InsertDescending(key, s[0], t)
  }

  /** sortWorks: the map's works, newest key first; keys that do not parse count as the zero
      time. sort.Slice is not stable, so works with equal keys may come in any order. */
  method SortWorks(works: map<string, U.Work>) returns (sorted: seq<U.Work>, ghost keys: seq<string>)
    ensures Enumerates(works, keys) && |sorted| == |works|
    ensures multiset(sorted) == multiset(ValuesAt(works, keys))
    ensures NewestFirst(sorted)
  {
    var values;
    values, keys := MapValues(works);
    var ordered := SortDescending(SortKey, values);
    assert |ordered| == |values| by {
      assert |multiset(ordered)| == |multiset(values)|;
    }
    sorted := AppendEach(ordered);
  }

  /** The loop that appends the sorted works one by one to a fresh slice: a copy. */
  method AppendEach(ws: seq<U.Work>) returns (out: seq<U.Work>)
    ensures out == ws
  {
    out := [];
    var i := 0;
    while i < |ws|
      invariant 0 <= i <= |ws|
      invariant out == ws[..i]
    {
      out := out + [ws[i]];
      i := i + 1;
    }
  }

  // ---------------------------------------------------------------- chunking

  const CarouselSize := 10

  /** Consecutive runs of at most ten, in order, none empty. */
  function Chunks<X>(s: seq<X>): seq<seq<X>>
    decreases |s|
  {
    if |s| == 0 then []
    else if |s| <= CarouselSize then [s]
    else [s[..CarouselSize]] + Chunks(s[CarouselSize..])
  }

  function Flatten<X>(ss: seq<seq<X>>): seq<X> {
    if ss == [] then [] else ss[0] + Flatten(ss[1..])
  }

  function Reverse<X>(s: seq<X>): (r: seq<X>)
    ensures |r| == |s| && forall i :: 0 <= i < |s| ==> r[i] == s[|s| - 1 - i]
  {
    if s == [] then [] else Reverse(s[1..]) + [s[0]]
  }

  /** ⌈n / 10⌉ carousels. */
  lemma {:induction false} ChunksCount<X>(s: seq<X>)
    ensures |Chunks(s)| == (|s| + CarouselSize - 1) / CarouselSize
    decreases |s|
  {
    if |s| > CarouselSize {
      ChunksCount(s[CarouselSize..]);
    }
  }

  /** No carousel is empty or holds more than ten bubbles. */
  lemma {:induction false} ChunksBounded<X>(s: seq<X>)
    ensures forall c :: c in Chunks(s) ==> 0 < |c| <= CarouselSize
    decreases |s|
  {
    if |s| > CarouselSize {
      ChunksBounded(s[CarouselSize..]);
    }
  }

  /** Read in order, the carousels give back every bubble exactly once. */
  lemma {:induction false} ChunksFlatten<X>(s: seq<X>)
    ensures Flatten(Chunks(s)) == s
    decreases |s|
  {
    if |s| > CarouselSize {
      ChunksFlatten(s[CarouselSize..]);
      assert s == s[..CarouselSize] + s[CarouselSize..];
    } else if |s| > 0 {
      assert Flatten(Chunks(s)) == s + Flatten([]);
    }
  }

  /** Appending a run of at most ten to a whole number of carousels adds one carousel. */
  lemma {:induction false} ChunksAppend<X>(s: seq<X>, c: seq<X>)
    requires |s| % CarouselSize == 0 && 0 < |c| <= CarouselSize
    ensures Chunks(s + c) == Chunks(s) + [c]
    decreases |s|
  {
    if |s| == 0 {
      assert s + c == c;
    } else {
      assert (s + c)[..CarouselSize] == s[..CarouselSize];
      assert (s + c)[CarouselSize..] == s[CarouselSize..] + c;
      ChunksAppend(s[CarouselSize..], c);
    }
  }

  function Items(bucket: string, ws: seq<U.Work>, skill: string, handedness: string, showBtns: bool): (r: seq<Bubble>)
    ensures |r| == |ws|
  {
    seq(|ws|, i requires 0 <= i < |ws| => CarouselItem(bucket, ws[i], skill, handedness, showBtns))
  }

  /** `cs` is what getCarousels may return for `works`: the bubbles of some newest-first
      ordering of the works, in carousels of ten, the carousel list reversed. */
  ghost predicate PortfolioCarousels(bucket: string, works: map<string, U.Work>, skill: string, handedness: string,
                                     showBtns: bool, cs: seq<seq<Bubble>>) {
    exists sorted: seq<U.Work>, keys: seq<string> ::
      Enumerates(works, keys) && multiset(sorted) == multiset(ValuesAt(works, keys)) && NewestFirst(sorted) &&
      cs == Reverse(Chunks(Items(bucket, sorted, skill, handedness, showBtns)))
  }

  /** getCarousels: the sorted works' bubbles, in carousels of ten, the carousel list reversed
      so that the one holding the newest works comes last. */
  method GetCarousels(bucket: string, works: map<string, U.Work>, skill: string, handedness: string, showBtns: bool)
    returns (carousels: seq<seq<Bubble>>, sorted: seq<U.Work>, ghost keys: seq<string>)
    ensures Enumerates(works, keys) && |sorted| == |works|
    ensures multiset(sorted) == multiset(ValuesAt(works, keys)) && NewestFirst(sorted)
    ensures carousels == Reverse(Chunks(Items(bucket, sorted, skill, handedness, showBtns)))
    ensures PortfolioCarousels(bucket, works, skill, handedness, showBtns, carousels)
  {
    sorted, keys := SortWorks(works);
    var render := w => CarouselItem(bucket, w, skill, handedness, showBtns);
    var carouselItems := InsertCarousels(render, sorted);
    assert Rendered(render, sorted) == Items(bucket, sorted, skill, handedness, showBtns);
    carousels := Reverse(carouselItems);
  }

  function Rendered<X>(render: U.Work -> X, ws: seq<U.Work>): (r: seq<X>)
    ensures |r| == |ws|
  {
    seq(|ws|, i requires 0 <= i < |ws| => render(ws[i]))
  }

  /** The loop of getCarousels, with the bubble of each work given by `render`: a carousel is
      closed each time ten bubbles are pending, and the remainder forms the last one. */
  method InsertCarousels<X>(render: U.Work -> X, sorted: seq<U.Work>) returns (carouselItems: seq<seq<X>>)
    ensures carouselItems == Chunks(Rendered(render, sorted))
  {
    ghost var all := Rendered(render, sorted);
    var items: seq<X> := [];
    carouselItems := [];
    ghost var done := 0;
    for i := 0 to |sorted|
      invariant 0 <= done <= i && done % CarouselSize == 0 && i - done < CarouselSize
      invariant carouselItems == Chunks(all[..done])
      invariant items == all[done..i]
    {
      var item := render(sorted[i]);
      SliceSnoc(all, done, i);
      items := items + [item];
      if |items| == CarouselSize {
        CloseCarousel(all, done, i + 1);
        carouselItems := carouselItems + [items];
        items := [];
        done := i + 1;
      }
    }
    if |items| > 0 {
      CloseCarousel(all, done, |all|);
      carouselItems := carouselItems + [items];
    }
    assert all[..|all|] == all;
  }

  /** Closing the pending run `all[done..hi]` extends the carousels of `all[..done]` to those of `all[..hi]`. */
  lemma CloseCarousel<X>(all: seq<X>, done: int, hi: int)
    requires 0 <= done < hi <= |all| && done % CarouselSize == 0 && hi - done <= CarouselSize
    ensures Chunks(all[..done]) + [all[done..hi]] == Chunks(all[..hi])
  {
    ChunksAppend(all[..done], all[done..hi]);
    SliceJoin(all, done, hi);
  }

  lemma SliceSnoc<X>(s: seq<X>, lo: int, hi: int)
    requires 0 <= lo <= hi < |s|
    ensures s[lo..hi] + [s[hi]] == s[lo..hi + 1]
  {
  }

  lemma SliceJoin<X>(s: seq<X>, mid: int, hi: int)
    requires 0 <= mid <= hi <= |s|
    ensures s[..mid] + s[mid..hi] == s[..hi]
  {
  }

  /** The last carousel sent holds the newest ten works (or all of them when fewer). */
  lemma NewestCarouselLast<X>(s: seq<X>)
    requires |s| > 0
    ensures var r := Reverse(Chunks(s));
      |r| > 0 && r[|r| - 1] == s[..if |s| < CarouselSize then |s| else CarouselSize]
  {
  }
}
