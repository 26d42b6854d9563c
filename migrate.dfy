/** The renames of linebot/scripts/firestore_migrate_snake_case.py: rename_keys over a
    rename table, and migrate_user_doc and migrate_chat_doc, which rename the known camelCase
    fields of a user or a chat document and, when asked, normalise every key. The script
    works on a deep copy of the document; values give that here without further ado. */
module Migrate {
  import opened Wrappers
  import opened PyDict
  import SC = SnakeCase
  import CA = ChatApi

  /** A rename table, its (old, new) pairs in the order they are applied. */
  type Mapping = seq<(string, string)>

  /** WorkKeyMap: the renames of a portfolio work item. */
  const WorkKeyMap: Mapping := [("comparisonVideo", "comparison_video"), ("previewNote", "preview_note"),
                                ("aiNote", "ai_note"), ("gradingOutcome", "grading_outcome"),
                                ("skeletonVideo", "skeleton_video"), ("video", "skeleton_video")]

  /** The top-level renames of a user document. */
  const TopMap: Mapping := [("folderIDs", "folder_paths"), ("gptConversationIDs", "gpt_conversation_ids")]

  // ---------------------------------------------------------------- rename_keys

  /** One round of rename_keys' loop: the old key's value moves to the new key, or the old
      key is dropped when the new one is already set. */
  function RenameStep(out: Items, o: string, n: string): (Items, bool) {
    if Has(out, o) && !Has(out, n) then (Put(Pop(out, o), n, Get(out, o).value), true)
    else if Has(out, o) && Has(out, n) then (Pop(out, o), true)
    else (out, false)
  }

  /** rename_keys(d, mapping): the rounds in table order, `changed` set by any of them. */
  function Rename(d: Items, m: Mapping): (Items, bool) {
    if m == [] then (d, false)
    else
      var prev := Rename(d, m[..|m| - 1]);
      var step := RenameStep(prev.0, m[|m| - 1].0, m[|m| - 1].1);
      (step.0, prev.1 || step.1)
  }

  method RenameKeys(d: Items, mapping: Mapping) returns (out: Items, changed: bool)
    ensures (out, changed) == Rename(d, mapping)
  {
    out, changed := d, false;
    for i := 0 to |mapping|
      invariant (out, changed) == Rename(d, mapping[..i])
    {
      var (o, n) := mapping[i];
      assert mapping[..i + 1][..i] == mapping[..i];
      if Has(out, o) && !Has(out, n) {
        var v := Get(out, o).value;
        out := Pop(out, o);
        out := Put(out, n, v);
        changed := true;
      } else if Has(out, o) && Has(out, n) {
        out := Pop(out, o);
        changed := true;
      }
    }
    assert mapping[..|mapping|] == mapping;
  }

  /** `k` is the old key of some pair. */
  predicate IsOld(m: Mapping, k: string) {
    exists i :: 0 <= i < |m| && m[i].0 == k
  }

  /** The old keys are distinct and none of them is also a new key, as in both of the
      script's tables. */
  predicate Separate(m: Mapping) {
    (forall i, j :: 0 <= i < j < |m| ==> m[i].0 != m[j].0) &&
    (forall i, j :: 0 <= i < |m| && 0 <= j < |m| ==> m[i].0 != m[j].1)
  }

  /** The value `k` is given from `d` by the first pair of `m` that renames into `k` and whose
      old key `d` holds, if any. */
  function FirstSource(d: Items, m: Mapping, k: string): Option<Value> {
    if m == [] then None
    else
      var f := FirstSource(d, m[..|m| - 1], k);
      if f.Some? then f
      else if m[|m| - 1].1 == k && Has(d, m[|m| - 1].0) then Get(d, m[|m| - 1].0)
      else None
  }

  /** FirstSource finds the earliest pair into `k` whose old key is present, and none means
      there is no such pair. */
  lemma {:induction false} FirstSourceSpec(d: Items, m: Mapping, k: string)
    ensures FirstSource(d, m, k).None? <==> forall i :: 0 <= i < |m| && m[i].1 == k ==> !Has(d, m[i].0)
    ensures FirstSource(d, m, k).Some? ==>
              exists i :: 0 <= i < |m| && m[i].1 == k && Has(d, m[i].0) && FirstSource(d, m, k) == Get(d, m[i].0)
                          && forall j :: 0 <= j < i && m[j].1 == k ==> !Has(d, m[j].0)
  {
    if m != [] {
      var init := m[..|m| - 1];
      FirstSourceSpec(d, init, k);
      assert forall i :: 0 <= i < |init| ==> init[i] == m[i];
      if FirstSource(d, init, k).Some? {
        var i :| 0 <= i < |init| && init[i].1 == k && Has(d, init[i].0) && FirstSource(d, init, k) == Get(d, init[i].0)
                 && forall j :: 0 <= j < i && init[j].1 == k ==> !Has(d, init[j].0);
        assert m[i] == init[i];
      }
    }
  }

  /** What key `k` reads after the pairs of `m`: nothing for an old key, its own value when it
      had one, else what the first pair into it brings. */
  function Expected(d: Items, m: Mapping, k: string): Option<Value> {
    if IsOld(m, k) then None else if Has(d, k) then Get(d, k) else FirstSource(d, m, k)
  }

  /** rename_keys removes every old key, never overwrites a key that is already set, gives a
      missing new key the value of the first present old key renamed into it, leaves every
      other key alone, and reports a change exactly when some old key was present. */
  lemma {:induction false} RenameSpec(d: Items, m: Mapping)
    requires Separate(m)
    ensures forall k :: Get(Rename(d, m).0, k) == Expected(d, m, k)
    ensures Rename(d, m).1 <==> exists i :: 0 <= i < |m| && Has(d, m[i].0)
  {
    if m != [] {
      var init := m[..|m| - 1];
      var (o, n) := m[|m| - 1];
      assert m == init + [(o, n)];
      assert Separate(init) by {
        assert forall i :: 0 <= i < |init| ==> init[i] == m[i];
      }
      RenameSpec(d, init);
      RenameStepSpec(d, m, init, o, n);
      RenameChangedStep(d, m, init, o, n);
    }
  }

  /** The flag after one more round: it was set before, or the new round's old key is in `d`. */
  lemma RenameChangedStep(d: Items, m: Mapping, init: Mapping, o: string, n: string)
    requires m == init + [(o, n)]
    requires Rename(d, init).1 <==> exists i :: 0 <= i < |init| && Has(d, init[i].0)
    requires RenameStep(Rename(d, init).0, o, n).1 == Has(d, o)
    ensures Rename(d, m).1 <==> exists i :: 0 <= i < |m| && Has(d, m[i].0)
  {
    assert m[..|m| - 1] == init && m[|m| - 1] == (o, n);
    assert Rename(d, m).1 == (Rename(d, init).1 || Has(d, o));
    if Rename(d, init).1 {
      var i :| 0 <= i < |init| && Has(d, init[i].0);
      assert m[i] == init[i];
    }
    if exists i :: 0 <= i < |m| && Has(d, m[i].0) {
      var i :| 0 <= i < |m| && Has(d, m[i].0);
      if i < |init| {
        assert init[i] == m[i];
      }
    }
  }

  /** One round keeps the picture Expected draws, from the table's prefix to the table. */
  lemma RenameStepSpec(d: Items, m: Mapping, init: Mapping, o: string, n: string)
    requires m == init + [(o, n)] && Separate(m)
    requires forall k :: Get(Rename(d, init).0, k) == Expected(d, init, k)
    ensures forall k :: Get(Rename(d, m).0, k) == Expected(d, m, k)
    ensures RenameStep(Rename(d, init).0, o, n).1 == Has(d, o)
  {
    assert m[..|m| - 1] == init && m[|m| - 1] == (o, n);
    var cur := Rename(d, init).0;
    forall i | 0 <= i < |init| ensures init[i] == m[i] && init[i].0 != o && init[i].0 != n && init[i].1 != o {
      assert m[i] == init[i];
    }
    assert o != n;
    assert FirstSource(d, init, o) == None by {
      FirstSourceSpec(d, init, o);
    }
    assert Get(cur, o) == Get(d, o);
    forall k ensures IsOld(m, k) <==> IsOld(init, k) || k == o {
      if IsOld(m, k) {
        var i :| 0 <= i < |m| && m[i].0 == k;
        if i < |init| {
          assert init[i].0 == k;
        }
      }
    }
    var r := RenameStep(cur, o, n).0;
    forall k ensures Get(r, k) == Expected(d, m, k) {
      if Has(cur, o) && !Has(cur, n) {
        GetPut(Pop(cur, o), n, Get(cur, o).value, k);
        GetPop(cur, o, k);
      } else if Has(cur, o) {
        GetPop(cur, o, k);
      }
    }
  }

  /** A rename that reports no change leaves the dict as it was. */
  lemma {:induction false} RenameUnchanged(d: Items, m: Mapping)
    requires !Rename(d, m).1
    ensures Rename(d, m).0 == d
  {
    if m != [] {
      RenameUnchanged(d, m[..|m| - 1]);
    }
  }

  /** Renaming again changes nothing: no old key is left for a second run to find. */
  lemma RenameAgain(d: Items, m: Mapping)
    requires Separate(m)
    ensures Rename(Rename(d, m).0, m) == (Rename(d, m).0, false)
  {
    var out := Rename(d, m).0;
    RenameSpec(d, m);
    RenameSpec(out, m);
    forall i | 0 <= i < |m| ensures !Has(out, m[i].0) {
      assert IsOld(m, m[i].0);
    }
    RenameUnchanged(out, m);
  }

  /** The first pair into `k` whose old key is present decides what `k` is given. */
  lemma FirstSourceAt(d: Items, m: Mapping, i: nat, k: string)
    requires i < |m| && m[i].1 == k && Has(d, m[i].0)
    requires forall j :: 0 <= j < i ==> m[j].1 != k
    ensures FirstSource(d, m, k) == Get(d, m[i].0)
  {
    FirstSourceSpec(d, m, k);
    var i' :| 0 <= i' < |m| && m[i'].1 == k && Has(d, m[i'].0) && FirstSource(d, m, k) == Get(d, m[i'].0)
              && forall j :: 0 <= j < i' && m[j].1 == k ==> !Has(d, m[j].0);
    assert i' == i;
  }

  /** WorkKeyMap has distinct old keys, none of which is a new key. */
  lemma WorkKeyMapSeparate()
    ensures Separate(WorkKeyMap)
  {
    var m := WorkKeyMap;
    assert |m[0].0| == 15 && |m[1].0| == 11 && |m[2].0| == 6 && |m[3].0| == 14 && |m[4].0| == 13 && |m[5].0| == 5;
    assert |m[0].1| == 16 && |m[1].1| == 12 && |m[2].1| == 7 && |m[3].1| == 15 && |m[4].1| == 14 && |m[5].1| == 14;
    assert m[0].0[0] == 'c' && m[3].1[0] == 'g' && m[3].0[0] == 'g' && m[4].1[0] == 's';
    forall i, j | 0 <= i < j < |m| ensures m[i].0 != m[j].0 {
    }
    forall i, j | 0 <= i < |m| && 0 <= j < |m| ensures m[i].0 != m[j].1 {
    }
  }

  /** So does the table of top-level renames. */
  lemma TopMapSeparate()
    ensures Separate(TopMap)
  {
    var m := TopMap;
    assert |m[0].0| == 9 && |m[1].0| == 18 && |m[0].1| == 12 && |m[1].1| == 20;
    forall i, j | 0 <= i < |m| && 0 <= j < |m| ensures m[i].0 != m[j].1 {
    }
  }

  /** When a work item holds both skeletonVideo and video but no skeleton_video, skeletonVideo's
      value is the one kept, whatever video held. */
  lemma SkeletonWins(w: Items)
    requires Has(w, "skeletonVideo") && !Has(w, "skeleton_video")
    ensures Get(Rename(w, WorkKeyMap).0, "skeleton_video") == Get(w, "skeletonVideo")
    ensures !Has(Rename(w, WorkKeyMap).0, "video")
  {
    var m := WorkKeyMap;
    WorkKeyMapSeparate();
    RenameSpec(w, m);
    assert IsOld(m, "video") by {
      assert m[5].0 == "video";
    }
    assert !IsOld(m, "skeleton_video") by {
      assert |m[0].0| == 15 && |m[1].0| == 11 && |m[2].0| == 6 && |m[3].0| == 14 && |m[4].0| == 13 && |m[5].0| == 5;
    }
    assert |m[0].1| == 16 && |m[1].1| == 12 && |m[2].1| == 7 && |m[3].1| == 15;
    FirstSourceAt(w, m, 4, "skeleton_video");
  }

  // ---------------------------------------------------------------- top-level renames

  /** The rename migrate_user_doc and migrate_chat_doc do by hand: the old key's value is
      copied to the new key unless that is already set, then the old key is dropped. */
  function TopRename(d: Items, o: string, n: string): (Items, bool) {
    if Has(d, o) then (Pop(if Has(d, n) then d else Put(d, n, Get(d, o).value), o), true)
    else (d, false)
  }

  /** The hand-written rename drops the old key, keeps a value already under the new key,
      otherwise moves the old key's value there, touches no other key, and reports a change
      exactly when the old key was present. */
  lemma TopRenameSpec(d: Items, o: string, n: string)
    requires o != n
    ensures var (r, c) := TopRename(d, o, n);
            !Has(r, o) && Get(r, n) == (if Has(d, n) then Get(d, n) else Get(d, o))
            && (forall k :: k != o && k != n ==> Get(r, k) == Get(d, k)) && (c <==> Has(d, o))
  {
    var r := TopRename(d, o, n).0;
    forall k ensures Get(r, k) == if k == o then None else if k == n && !Has(d, n) then Get(d, o) else Get(d, k) {
      if Has(d, o) {
        var e := if Has(d, n) then d else Put(d, n, Get(d, o).value);
        GetPop(e, o, k);
        if !Has(d, n) {
          GetPut(d, n, Get(d, o).value, k);
        }
      }
    }
  }

  /** It is one round of rename_keys under another name: the same dict and the same flag. */
  lemma TopRenameIsStep(d: Items, o: string, n: string)
    requires o != n
    ensures TopRename(d, o, n) == RenameStep(d, o, n)
  {
    if Has(d, o) && !Has(d, n) {
      PopPut(d, o, n, Get(d, o).value);
    }
  }

  /** The top-level loop of migrate_user_doc over a table. */
  function TopRenames(d: Items, m: Mapping): (Items, bool) {
    if m == [] then (d, false)
    else
      var prev := TopRenames(d, m[..|m| - 1]);
      var step := TopRename(prev.0, m[|m| - 1].0, m[|m| - 1].1);
      (step.0, prev.1 || step.1)
  }

  /** migrate_user_doc's top-level loop is rename_keys over its table, so RenameSpec
      describes it. */
  lemma {:induction false} TopRenamesAreRename(d: Items, m: Mapping)
    requires forall i :: 0 <= i < |m| ==> m[i].0 != m[i].1
    ensures TopRenames(d, m) == Rename(d, m)
  {
    if m != [] {
      var init := m[..|m| - 1];
      assert forall i :: 0 <= i < |init| ==> init[i] == m[i];
      TopRenamesAreRename(d, init);
      TopRenameIsStep(Rename(d, init).0, m[|m| - 1].0, m[|m| - 1].1);
    }
  }

  // ---------------------------------------------------------------- the portfolio pass

  /** A work item after the portfolio pass: rename_keys' result when it reports a change. */
  function WorkAfter(w: Value): Value {
    if w.Dict? && Rename(w.entries, WorkKeyMap).1 then Dict(Rename(w.entries, WorkKeyMap).0) else w
  }

  predicate WorkChanged(w: Value) {
    w.Dict? && Rename(w.entries, WorkKeyMap).1
  }

  /** A work item holding none of WorkKeyMap's old keys. */
  predicate WorkClean(w: Value) {
    w.Dict? ==> forall i :: 0 <= i < |WorkKeyMap| ==> !Has(w.entries, WorkKeyMap[i].0)
  }

  /** A skill map's work items after the pass, each in its place. */
  function WorksAfter(works: Items): (r: Items)
    ensures |r| == |works|
  {
    seq(|works|, j requires 0 <= j < |works| => (works[j].0, WorkAfter(works[j].1)))
  }

  predicate WorksChanged(works: Items) {
    exists j :: 0 <= j < |works| && WorkChanged(works[j].1)
  }

  /** A skill map is changed in place; anything else in the portfolio is left alone. */
  function SkillAfter(s: Value): Value {
    if s.Dict? then Dict(WorksAfter(s.entries)) else s
  }

  predicate SkillChanged(s: Value) {
    s.Dict? && WorksChanged(s.entries)
  }

  function SkillsAfter(skills: Items): (r: Items)
    ensures |r| == |skills|
  {
    seq(|skills|, j requires 0 <= j < |skills| => (skills[j].0, SkillAfter(skills[j].1)))
  }

  predicate SkillsChanged(skills: Items) {
    exists j :: 0 <= j < |skills| && SkillChanged(skills[j].1)
  }

  /** The portfolio pass of migrate_user_doc: every work-item dict of every skill-map dict is
      renamed by WorkKeyMap, and the portfolio is written back when any was changed. */
  function PortfolioPass(doc: Items): (Items, bool) {
    var p := Get(doc, "portfolio");
    if p.Some? && p.value.Dict? && SkillsChanged(p.value.entries) then
      (Put(doc, "portfolio", Dict(SkillsAfter(p.value.entries))), true)
    else (doc, false)
  }

  /** Every work-item dict of every skill-map dict holds none of WorkKeyMap's old keys. */
  predicate PortfolioClean(p: Option<Value>) {
    p.Some? && p.value.Dict? ==>
      forall j, l :: 0 <= j < |p.value.entries| && p.value.entries[j].1.Dict? && 0 <= l < |p.value.entries[j].1.entries| ==>
        WorkClean(p.value.entries[j].1.entries[l].1)
  }

  /** A work item after the pass is rename_keys' result, with or without a change; it holds
      no old key; and it was changed exactly when it held one. */
  lemma WorkAfterSpec(w: Value)
    ensures w.Dict? ==> WorkAfter(w) == Dict(Rename(w.entries, WorkKeyMap).0)
    ensures WorkClean(WorkAfter(w))
    ensures WorkChanged(w) <==> !WorkClean(w)
  {
    if w.Dict? {
      WorkKeyMapSeparate();
      RenameSpec(w.entries, WorkKeyMap);
      if !Rename(w.entries, WorkKeyMap).1 {
        RenameUnchanged(w.entries, WorkKeyMap);
      }
      var r := Rename(w.entries, WorkKeyMap).0;
      forall i | 0 <= i < |WorkKeyMap| ensures !Has(r, WorkKeyMap[i].0) {
        assert IsOld(WorkKeyMap, WorkKeyMap[i].0);
      }
    }
  }

  /** A skill map none of whose work items changes comes out as it went in. */
  lemma SkillAfterUnchanged(s: Value)
    requires !SkillChanged(s)
    ensures SkillAfter(s) == s
  {
    if s.Dict? {
      assert WorksAfter(s.entries) == s.entries;
    }
  }

  /** The portfolio after the pass: each skill map renamed in place, or the portfolio as it
      was when it is not a dict, and either way with no old key left in any work item; no
      other field changes. */
  lemma PortfolioPassSpec(doc: Items)
    ensures var p, q := Get(doc, "portfolio"), Get(PortfolioPass(doc).0, "portfolio");
            (p.Some? && p.value.Dict? ==> q == Some(Dict(SkillsAfter(p.value.entries))))
            && (!(p.Some? && p.value.Dict?) ==> q == p)
            && PortfolioClean(q)
    ensures forall k :: k != "portfolio" ==> Get(PortfolioPass(doc).0, k) == Get(doc, k)
  {
    var p := Get(doc, "portfolio");
    var out := PortfolioPass(doc).0;
    PortfolioPassReads(doc);
    if p.Some? && p.value.Dict? {
      var e := p.value.entries;
      SkillsAfterClean(e);
      if !SkillsChanged(e) {
        SkillsAfterUnchanged(e);
      }
    }
  }

  /** The pass writes the renamed portfolio, or nothing. */
  lemma PortfolioPassReads(doc: Items)
    ensures var p, out := Get(doc, "portfolio"), PortfolioPass(doc).0;
            forall k :: Get(out, k) == if k == "portfolio" && PortfolioPass(doc).1 then Some(Dict(SkillsAfter(p.value.entries))) else Get(doc, k)
  {
    var p := Get(doc, "portfolio");
    if PortfolioPass(doc).1 {
      forall k ensures Get(PortfolioPass(doc).0, k) == if k == "portfolio" then Some(Dict(SkillsAfter(p.value.entries))) else Get(doc, k) {
        GetPut(doc, "portfolio", Dict(SkillsAfter(p.value.entries)), k);
      }
    }
  }

  /** Skill maps none of which changes come out as they went in. */
  lemma SkillsAfterUnchanged(e: Items)
    requires !SkillsChanged(e)
    ensures SkillsAfter(e) == e
  {
    forall j | 0 <= j < |e| ensures SkillsAfter(e)[j] == e[j] {
      SkillAfterUnchanged(e[j].1);
    }
  }

  /** The pass reports a change exactly when the document differs afterwards. */
  lemma PortfolioPassChanged(doc: Items)
    ensures PortfolioPass(doc).1 <==> PortfolioPass(doc).0 != doc
  {
    var p := Get(doc, "portfolio");
    if PortfolioPass(doc).1 {
      PortfolioPassReads(doc);
      var e := p.value.entries;
      var j :| 0 <= j < |e| && SkillChanged(e[j].1);
      var l :| 0 <= l < |e[j].1.entries| && WorkChanged(e[j].1.entries[l].1);
      WorkAfterSpec(e[j].1.entries[l].1);
      assert SkillsAfter(e)[j].1.entries[l].1 == WorkAfter(e[j].1.entries[l].1);
      assert Get(PortfolioPass(doc).0, "portfolio") != p;
    }
  }

  /** After the pass no work item of the portfolio holds an old key. */
  lemma SkillsAfterClean(e: Items)
    ensures PortfolioClean(Some(Dict(SkillsAfter(e))))
  {
    var q := SkillsAfter(e);
    forall j, l | 0 <= j < |q| && q[j].1.Dict? && 0 <= l < |q[j].1.entries| ensures WorkClean(q[j].1.entries[l].1) {
      assert q[j].1 == SkillAfter(e[j].1);
      WorkAfterSpec(e[j].1.entries[l].1);
    }
  }

  /** A clean portfolio gives the pass nothing to do. */
  lemma PortfolioPassClean(doc: Items)
    requires PortfolioClean(Get(doc, "portfolio"))
    ensures PortfolioPass(doc) == (doc, false)
  {
    var p := Get(doc, "portfolio");
    if p.Some? && p.value.Dict? && SkillsChanged(p.value.entries) {
      var e := p.value.entries;
      var j :| 0 <= j < |e| && SkillChanged(e[j].1);
      var l :| 0 <= l < |e[j].1.entries| && WorkChanged(e[j].1.entries[l].1);
      WorkAfterSpec(e[j].1.entries[l].1);
      assert false;
    }
  }

  // ---------------------------------------------------------------- the deep pass

  /** `deep=True`: the whole document with every key normalised, when that differs from it. */
  function DeepPass(doc: Items, deep: bool): (Items, bool) {
    if deep then
      var dn := SC.DeepSnake(Dict(doc));
      if dn != Dict(doc) then (dn.entries, true) else (doc, false)
    else (doc, false)
  }

  /** Either way the deep pass leaves the normalised document, and, over a dict with unique
      keys, every key it leaves is normal: without capitals and its own normal form. The
      change test compares the documents structurally, entry order included. */
  lemma DeepPassSpec(doc: Items)
    requires UniqueKeys(doc)
    ensures DeepPass(doc, true).0 == SC.DeepSnake(Dict(doc)).entries
    ensures forall k :: Has(DeepPass(doc, true).0, k) ==> !SC.HasUpper(k) && SC.NewKey(k) == k
  {
    forall k | Has(DeepPass(doc, true).0, k) ensures !SC.HasUpper(k) && SC.NewKey(k) == k {
      SC.DeepSnakeKeys(Dict(doc), k);
      var j :| 0 <= j < |doc| && SC.NewKey(doc[j].0) == k;
      SC.NewKeyNormal(doc[j].0);
    }
  }

  method DeepPassOf(doc: Items, deep: bool) returns (out: Items, changed: bool)
    ensures (out, changed) == DeepPass(doc, deep)
  {
    out, changed := doc, false;
    if deep {
      var dn := SC.DeepSnakeKeysOf(Dict(doc));
      if dn != Dict(doc) {
        out, changed := dn.entries, true;
      }
    }
  }

  // ---------------------------------------------------------------- migrate_user_doc

  /** migrate_user_doc(doc, deep): the top-level renames, the portfolio pass, then the deep
      pass when asked; `changed` when any of them changed something. */
  function MigrateUser(doc: Items, deep: bool): (Items, bool) {
    var top := TopRenames(doc, TopMap);
    var port := PortfolioPass(top.0);
    var dp := DeepPass(port.0, deep);
    (dp.0, top.1 || port.1 || dp.1)
  }

  /** The top-level loop of migrate_user_doc unrolled: folderIDs, then gptConversationIDs. */
  lemma TopMapRenames(doc: Items)
    ensures TopRenames(doc, TopMap) ==
              var a := TopRename(doc, "folderIDs", "folder_paths");
              var b := TopRename(a.0, "gptConversationIDs", "gpt_conversation_ids");
              (b.0, a.1 || b.1)
  {
    var m1 := TopMap[..1];
    assert m1 == [("folderIDs", "folder_paths")] && m1[..0] == [];
    assert TopMap[..|TopMap| - 1] == m1;
    var a := TopRename(doc, "folderIDs", "folder_paths");
    assert TopRenames(doc, m1) == (a.0, a.1);
  }

  /** Without the deep pass, migrate_user_doc drops folderIDs and gptConversationIDs, keeps a
      value already under folder_paths or gpt_conversation_ids and otherwise moves the old
      one there, and leaves every other top-level field but the portfolio alone. */
  lemma MigrateUserTop(doc: Items)
    ensures var out := MigrateUser(doc, false).0;
            !Has(out, "folderIDs") && !Has(out, "gptConversationIDs")
            && Get(out, "folder_paths") == (if Has(doc, "folder_paths") then Get(doc, "folder_paths") else Get(doc, "folderIDs"))
            && Get(out, "gpt_conversation_ids") ==
                 (if Has(doc, "gpt_conversation_ids") then Get(doc, "gpt_conversation_ids") else Get(doc, "gptConversationIDs"))
            && forall k :: (k != "folderIDs" && k != "gptConversationIDs" && k != "folder_paths"
                            && k != "gpt_conversation_ids" && k != "portfolio") ==> Get(out, k) == Get(doc, k)
  {
    TopUnrolled(doc);
    PortfolioPassSpec(TopRenames(doc, TopMap).0);
  }

  /** What the unrolled top-level loop reads at each key. */
  lemma TopUnrolled(doc: Items)
    ensures var t := TopRenames(doc, TopMap);
            !Has(t.0, "folderIDs") && !Has(t.0, "gptConversationIDs")
            && Get(t.0, "folder_paths") == (if Has(doc, "folder_paths") then Get(doc, "folder_paths") else Get(doc, "folderIDs"))
            && Get(t.0, "gpt_conversation_ids") ==
                 (if Has(doc, "gpt_conversation_ids") then Get(doc, "gpt_conversation_ids") else Get(doc, "gptConversationIDs"))
            && (forall k :: (k != "folderIDs" && k != "gptConversationIDs" && k != "folder_paths"
                             && k != "gpt_conversation_ids") ==> Get(t.0, k) == Get(doc, k))
            && (t.1 <==> Has(doc, "folderIDs") || Has(doc, "gptConversationIDs"))
  {
    TopMapRenames(doc);
    var a := TopRename(doc, "folderIDs", "folder_paths");
    assert |"folderIDs"| == 9 && |"folder_paths"| == 12 && |"gptConversationIDs"| == 18 && |"gpt_conversation_ids"| == 20;
    TopRenameSpec(doc, "folderIDs", "folder_paths");
    TopRenameSpec(a.0, "gptConversationIDs", "gpt_conversation_ids");
  }

  /** Without the deep pass, every work item of the portfolio is what rename_keys makes of
      it, in its place, so none holds an old key; a portfolio that is not a dict is left
      alone. */
  lemma MigrateUserPortfolio(doc: Items)
    ensures var p, q := Get(doc, "portfolio"), Get(MigrateUser(doc, false).0, "portfolio");
            (p.Some? && p.value.Dict? ==> q == Some(Dict(SkillsAfter(p.value.entries))))
            && (!(p.Some? && p.value.Dict?) ==> q == p)
            && PortfolioClean(q)
  {
    var t := TopRenames(doc, TopMap).0;
    assert Get(t, "portfolio") == Get(doc, "portfolio") by {
      TopUnrolled(doc);
      assert "portfolio"[0] == 'p';
    }
    assert MigrateUser(doc, false).0 == PortfolioPass(t).0;
    PortfolioPassSpec(t);
  }

  /** Without the deep pass, migrate_user_doc reports a change exactly when the document it
      returns differs from the one it was given. */
  lemma MigrateUserChanged(doc: Items)
    ensures MigrateUser(doc, false).1 <==> MigrateUser(doc, false).0 != doc
  {
    var t := TopRenames(doc, TopMap);
    TopUnrolled(doc);
    PortfolioPassSpec(t.0);
    PortfolioPassChanged(t.0);
    TopMapSeparate();
    TopRenamesAreRename(doc, TopMap);
    if !t.1 {
      RenameUnchanged(doc, TopMap);
    } else {
      assert "folderIDs"[0] == 'f' && "gptConversationIDs"[0] == 'g';
    }
  }

  /** migrate_user_doc is idempotent without the deep pass: run again on its own output it
      reports no change and returns that output as it is. */
  lemma MigrateUserIdempotent(doc: Items)
    ensures var out := MigrateUser(doc, false).0;
            MigrateUser(out, false) == (out, false)
  {
    var out := MigrateUser(doc, false).0;
    MigrateUserTop(doc);
    MigrateUserPortfolio(doc);
    TopUnrolled(out);
    TopMapSeparate();
    TopRenamesAreRename(out, TopMap);
    RenameUnchanged(out, TopMap);
    PortfolioPassClean(out);
  }

  /** A one-entry dict holds its key and no other. */
  lemma GetSingle(k: string, v: Value, key: string)
    ensures Get([(k, v)], key) == if k == key then Some(v) else None
  {
    assert [(k, v)][1..] == [];
  }

  /** A document holding only a portfolio has none of the top-level old keys. */
  lemma TopRenamesPortfolioOnly(p: Value)
    ensures TopRenames([("portfolio", p)], TopMap) == ([("portfolio", p)], false)
  {
    var d := [("portfolio", p)];
    assert TopMap[..1] == [TopMap[0]] && TopMap[..1][..0] == [] && TopMap[..2] == TopMap;
    GetSingle("portfolio", p, "folderIDs");
    GetSingle("portfolio", p, "gptConversationIDs");
    assert "portfolio"[0] != "folderIDs"[0] && "portfolio"[0] != "gptConversationIDs"[0];
    assert TopRenames(d, TopMap[..1]) == (d, false);
  }

  /** rename_keys over WorkKeyMap reports a change to a one-entry work item {key: v} exactly
      when `key` is one of its old keys. */
  lemma RenameSingle(key: string, v: Value)
    ensures Rename([(key, v)], WorkKeyMap).1 <==> exists i :: 0 <= i < |WorkKeyMap| && WorkKeyMap[i].0 == key
  {
    RenameSingleUpTo(key, v, |WorkKeyMap|);
    assert WorkKeyMap[..|WorkKeyMap|] == WorkKeyMap;
  }

  lemma {:induction false} RenameSingleUpTo(key: string, v: Value, n: nat)
    requires n <= |WorkKeyMap|
    ensures Rename([(key, v)], WorkKeyMap[..n]).1 <==> exists i :: 0 <= i < n && WorkKeyMap[i].0 == key
    ensures !Rename([(key, v)], WorkKeyMap[..n]).1 ==> Rename([(key, v)], WorkKeyMap[..n]).0 == [(key, v)]
  {
    if n > 0 {
      RenameSingleUpTo(key, v, n - 1);
      assert WorkKeyMap[..n][..n - 1] == WorkKeyMap[..n - 1];
      assert WorkKeyMap[..n][n - 1] == WorkKeyMap[n - 1];
      GetSingle(key, v, WorkKeyMap[n - 1].0);
    }
  }

  /** The deep pass lowers a leading capital: "Video" becomes "video". */
  lemma VideoKeyLowered()
    ensures SC.NewKey("Video") == "video"
  {
    assert SC.HasUpper("Video") by { assert SC.Upper("Video"[0]); }
    VideoNoSplit();
    VideoLowers();
    SC.LowerDashesOf("Video", "video");
    assert SC.ToSnakeCase("Video") == "video";
    VideoNotCollapsed();
  }

  lemma VideoLowers()
    ensures SC.LowersTo("Video", "video")
  {
    assert CA.LowerChar('V') == 'v';
    forall i | 1 <= i < 5 ensures CA.LowerChar("Video"[i]) == "Video"[i] {
      assert !SC.Upper("Video"[i]);
    }
  }

  lemma VideoNotCollapsed()
    ensures SC.CorrectCollapses("video") == "video"
  {
    assert !SC.StartsWith("video", "gpt") by { assert "video"[0] != 'g'; }
    assert !SC.StartsWith("video", "ai") by { assert "video"[0] != 'a'; }
  }

  /** Neither regular expression of to_snake_case matches in "Video". */
  lemma VideoNoSplit()
    ensures SC.SplitAcronym(SC.SplitLowerUpper("Video")) == "Video"
  {
    assert SC.SplitLowerUpper("o") == "o" by { assert "o"[1..] == []; }
    assert SC.SplitLowerUpper("eo") == "eo" by { assert "eo"[1..] == "o"; }
    assert SC.SplitLowerUpper("deo") == "deo" by { assert "deo"[1..] == "eo"; }
    assert SC.SplitLowerUpper("ideo") == "ideo" by { assert "ideo"[1..] == "deo"; }
    assert SC.SplitLowerUpper("Video") == "Video" by { assert "Video"[1..] == "ideo"; }
    VideoNoAcronym();
  }

  lemma VideoNoAcronym()
    ensures SC.SplitAcronym("Video") == "Video"
  {
    assert SC.UpperRun("ideo") == 0;
    assert SC.UpperRun("Video") == 1 by { assert "Video"[1..] == "ideo"; }
    assert SC.AcronymStepLength("Video") == 1;
    assert "Video"[1..] == "ideo";
    assert SC.SplitAcronym("o") == "o" by { assert "o"[1..] == []; }
    assert SC.SplitAcronym("eo") == "eo" by { assert "eo"[1..] == "o"; }
    assert SC.SplitAcronym("deo") == "deo" by { assert "deo"[1..] == "eo"; }
    assert SC.SplitAcronym("ideo") == "ideo" by { assert "ideo"[1..] == "deo"; }
  }

  /** A key without capitals that starts with neither "gpt" nor "ai" is left as it is. */
  lemma PlainKey(k: string)
    requires forall i :: 0 <= i < |k| ==> 'a' <= k[i] <= 'z'
    requires k != [] && k[0] != 'g' && k[0] != 'a'
    ensures SC.NewKey(k) == k
  {
    assert !SC.HasUpper(k);
  }

  /** The keys of the example document above the work item are already normal. */
  lemma ExampleKeysPlain()
    ensures SC.NewKey("portfolio") == "portfolio" && SC.NewKey("serve") == "serve" && SC.NewKey("d") == "d"
  {
    PlainKey("portfolio");
    PlainKey("serve");
    PlainKey("d");
  }

  /** The deep pass of a one-entry dict: the normalised key with the deep pass of the value. */
  lemma DeepSnakeSingle(k: string, v: Value)
    ensures SC.DeepSnake(Dict([(k, v)])) == Dict([(SC.NewKey(k), SC.DeepSnake(v))])
  {
    var x := Dict([(k, v)]);
    assert SC.SnakeEntries(x, 0) == [];
    assert SC.SnakeEntries(x, 1) == Put([], SC.NewKey(k), SC.DeepSnake(v));
  }

  /** With the deep pass the script is not idempotent: a work key "Video" is only lowered to
      "video" by the first run, and the second run's WorkKeyMap then renames it to
      "skeleton_video", so the second run still reports a change. */
  lemma DeepModeNotIdempotent()
    ensures var doc := [("portfolio", Dict([("serve", Dict([("d", Dict([("Video", Atom("x"))]))]))]))];
            var out := MigrateUser(doc, true).0;
            MigrateUser(out, true).1
  {
    var w1 := Dict([("Video", Atom("x"))]);
    var p1 := Dict([("serve", Dict([("d", w1)]))]);
    var doc := [("portfolio", p1)];
    var w2 := Dict([("video", Atom("x"))]);
    var p2 := Dict([("serve", Dict([("d", w2)]))]);
    TopRenamesPortfolioOnly(p1);
    GetSingle("portfolio", p1, "portfolio");
    assert !WorkChanged(w1) by {
      RenameSingle("Video", Atom("x"));
      assert forall i :: 0 <= i < |WorkKeyMap| ==> WorkKeyMap[i].0 != "Video";
    }
    assert !SkillsChanged(p1.entries);
    assert PortfolioPass(doc) == (doc, false);
    assert SC.DeepSnake(Dict(doc)) == Dict([("portfolio", p2)]) by {
      VideoKeyLowered();
      ExampleKeysPlain();
      DeepSnakeSingle("Video", Atom("x"));
      DeepSnakeSingle("d", w1);
      DeepSnakeSingle("serve", Dict([("d", w1)]));
      DeepSnakeSingle("portfolio", p1);
    }
    assert MigrateUser(doc, true).0 == [("portfolio", p2)];
    TopRenamesPortfolioOnly(p2);
    GetSingle("portfolio", p2, "portfolio");
    assert WorkChanged(w2) by {
      RenameSingle("video", Atom("x"));
      assert WorkKeyMap[5].0 == "video";
    }
    assert WorksChanged(p2.entries[0].1.entries) by { assert WorkChanged(p2.entries[0].1.entries[0].1); }
    assert SkillsChanged(p2.entries) by { assert SkillChanged(p2.entries[0].1); }
  }

  /** A document reported unchanged, deep pass or not, is the document it was given. */
  lemma MigrateUserUnchanged(doc: Items, deep: bool)
    requires !MigrateUser(doc, deep).1
    ensures MigrateUser(doc, deep).0 == doc
  {
    TopMapSeparate();
    TopRenamesAreRename(doc, TopMap);
    RenameUnchanged(doc, TopMap);
  }

  /** `skill_map[date_key] = new_work` for each changed work item, over a snapshot of the
      skill map's entries. */
  method MigrateSkillMap(works: Items) returns (out: Items, changed: bool)
    requires UniqueKeys(works)
    ensures Dict(out) == SkillAfter(Dict(works)) && changed == SkillChanged(Dict(works))
  {
    out, changed := works, false;
    for i := 0 to |works|
      invariant |out| == |works|
      invariant forall j :: 0 <= j < |works| ==> out[j] == if j < i then (works[j].0, WorkAfter(works[j].1)) else works[j]
      invariant changed <==> exists j :: 0 <= j < i && WorkChanged(works[j].1)
    {
      var (dateKey, work) := works[i];
      if work.Dict? {
        var newWork, wc := RenameKeys(work.entries, WorkKeyMap);
        if wc {
          assert UniqueKeys(out) by {
            assert forall j :: 0 <= j < |out| ==> out[j].0 == works[j].0;
          }
          PutAt(out, i, Dict(newWork));
          out := Put(out, dateKey, Dict(newWork));
          changed := true;
        }
      }
    }
    assert out == WorksAfter(works);
  }

  /** A value found in a well-formed document is well-formed. */
  lemma WellformedGet(d: Items, k: string)
    requires Wellformed(Dict(d)) && Has(d, k)
    ensures Wellformed(Get(d, k).value)
  {
    GetSpec(d, k);
  }

  /** The top-level loop of migrate_user_doc. */
  method TopRenamesOf(doc: Items, m: Mapping) returns (newDoc: Items, changed: bool)
    ensures (newDoc, changed) == TopRenames(doc, m)
  {
    newDoc, changed := doc, false;
    for i := 0 to |m|
      invariant (newDoc, changed) == TopRenames(doc, m[..i])
    {
      var (o, n) := m[i];
      assert m[..i + 1][..i] == m[..i];
      if Has(newDoc, o) {
        if !Has(newDoc, n) {
          newDoc := Put(newDoc, n, Get(newDoc, o).value);
        }
        newDoc := Pop(newDoc, o);
        changed := true;
      }
    }
    assert m[..|m|] == m;
  }

  /** The portfolio loop of migrate_user_doc. */
  method PortfolioPassOf(doc: Items) returns (newDoc: Items, changed: bool)
    requires Has(doc, "portfolio") ==> Wellformed(Get(doc, "portfolio").value)
    ensures (newDoc, changed) == PortfolioPass(doc)
  {
    newDoc, changed := doc, false;
    var portfolio := Get(newDoc, "portfolio");
    if portfolio.Some? && portfolio.value.Dict? {
      var entries := portfolio.value.entries;
      var skills := entries;
      var portfolioChanged := false;
      for s := 0 to |entries|
        invariant |skills| == |entries|
        invariant forall j :: 0 <= j < |entries| ==> skills[j] == if j < s then (entries[j].0, SkillAfter(entries[j].1)) else entries[j]
        invariant portfolioChanged <==> exists j :: 0 <= j < s && SkillChanged(entries[j].1)
      {
        var (skill, skillMap) := entries[s];
        if skillMap.Dict? {
          assert Wellformed(entries[s].1);
          var works, wc := MigrateSkillMap(skillMap.entries);
          skills := skills[s := (skill, Dict(works))];
          portfolioChanged := portfolioChanged || wc;
        }
      }
      assert skills == SkillsAfter(entries);
      if portfolioChanged {
        newDoc := Put(newDoc, "portfolio", Dict(skills));
        changed := true;
      }
    }
  }

  method MigrateUserDoc(doc: Items, deep: bool) returns (newDoc: Items, changed: bool)
    requires Wellformed(Dict(doc))
    ensures (newDoc, changed) == MigrateUser(doc, deep)
  {
    var topChanged, portfolioChanged, deepChanged;
    newDoc, topChanged := TopRenamesOf(doc, TopMap);
    assert Get(newDoc, "portfolio") == Get(doc, "portfolio") by {
      TopUnrolled(doc);
      assert "portfolio"[0] == 'p';
    }
    if Has(doc, "portfolio") {
      WellformedGet(doc, "portfolio");
    }
    newDoc, portfolioChanged := PortfolioPassOf(newDoc);
    newDoc, deepChanged := DeepPassOf(newDoc, deep);
    changed := topChanged || portfolioChanged || deepChanged;
  }

  // ---------------------------------------------------------------- migrate_chat_doc

  /** A message that is a dict carrying conversationId. */
  predicate MessageChanged(m: Value) {
    m.Dict? && Has(m.entries, "conversationId")
  }

  /** A message after the pass: conversationId renamed to conversation_id in place. */
  function MessageAfter(m: Value): Value {
    if MessageChanged(m) then Dict(TopRename(m.entries, "conversationId", "conversation_id").0) else m
  }

  function MessagesAfter(items: seq<Value>): (r: seq<Value>)
    ensures |r| == |items|
  {
    seq(|items|, i requires 0 <= i < |items| => MessageAfter(items[i]))
  }

  predicate MessagesChanged(items: seq<Value>) {
    exists i :: 0 <= i < |items| && MessageChanged(items[i])
  }

  /** The messages pass of migrate_chat_doc: the list is written back when any message
      changed. */
  function MessagesPass(doc: Items): (Items, bool) {
    var ms := Get(doc, "messages");
    if ms.Some? && ms.value.List? && MessagesChanged(ms.value.items) then
      (Put(doc, "messages", List(MessagesAfter(ms.value.items))), true)
    else (doc, false)
  }

  /** No message of the list carries conversationId. */
  predicate MessagesClean(p: Option<Value>) {
    p.Some? && p.value.List? ==> forall i :: 0 <= i < |p.value.items| ==> !MessageChanged(p.value.items[i])
  }

  /** migrate_chat_doc(doc, deep): userId, then every message's conversationId, then the deep
      pass when asked. */
  function MigrateChat(doc: Items, deep: bool): (Items, bool) {
    var top := TopRename(doc, "userId", "user_id");
    var ms := MessagesPass(top.0);
    var dp := DeepPass(ms.0, deep);
    (dp.0, top.1 || ms.1 || dp.1)
  }

  /** A message dict loses conversationId, keeps a conversation_id it had and otherwise gets
      conversationId's value there, and keeps every other field; anything else that is not a
      dict is left alone. */
  lemma MessageAfterSpec(m: Value)
    ensures !m.Dict? ==> MessageAfter(m) == m
    ensures m.Dict? ==>
              var a := MessageAfter(m).entries;
              MessageAfter(m).Dict? && !Has(a, "conversationId")
              && Get(a, "conversation_id") ==
                   (if Has(m.entries, "conversation_id") then Get(m.entries, "conversation_id") else Get(m.entries, "conversationId"))
              && forall k :: k != "conversationId" && k != "conversation_id" ==> Get(a, k) == Get(m.entries, k)
  {
    if m.Dict? {
      assert |"conversationId"| == 14 && |"conversation_id"| == 15;
      TopRenameSpec(m.entries, "conversationId", "conversation_id");
    }
  }

  /** The pass writes the renamed list, or nothing. */
  lemma MessagesPassReads(doc: Items)
    ensures var p, out := Get(doc, "messages"), MessagesPass(doc).0;
            forall k :: Get(out, k) == if k == "messages" && MessagesPass(doc).1 then Some(List(MessagesAfter(p.value.items))) else Get(doc, k)
  {
    var p := Get(doc, "messages");
    if MessagesPass(doc).1 {
      forall k ensures Get(MessagesPass(doc).0, k) == if k == "messages" then Some(List(MessagesAfter(p.value.items))) else Get(doc, k) {
        GetPut(doc, "messages", List(MessagesAfter(p.value.items)), k);
      }
    }
  }

  /** The list after the pass: each message renamed in place, or the field as it was when it
      is not a list, and either way with no conversationId left; no other field changes. The
      pass reports a change exactly when the document differs afterwards. */
  lemma MessagesPassSpec(doc: Items)
    ensures var p, q := Get(doc, "messages"), Get(MessagesPass(doc).0, "messages");
            (p.Some? && p.value.List? ==> q == Some(List(MessagesAfter(p.value.items))))
            && (!(p.Some? && p.value.List?) ==> q == p)
            && MessagesClean(q)
    ensures forall k :: k != "messages" ==> Get(MessagesPass(doc).0, k) == Get(doc, k)
    ensures MessagesPass(doc).1 <==> MessagesPass(doc).0 != doc
  {
    var p := Get(doc, "messages");
    MessagesPassReads(doc);
    if p.Some? && p.value.List? {
      var items := p.value.items;
      var r := MessagesAfter(items);
      forall i | 0 <= i < |r| ensures !MessageChanged(r[i]) {
        MessageAfterSpec(items[i]);
      }
      if !MessagesChanged(items) {
        assert r == items;
      } else {
        var i :| 0 <= i < |items| && MessageChanged(items[i]);
        assert r[i] != items[i];
      }
    }
  }

  /** A clean list gives the pass nothing to do. */
  lemma MessagesPassClean(doc: Items)
    requires MessagesClean(Get(doc, "messages"))
    ensures MessagesPass(doc) == (doc, false)
  {
  }

  /** Without the deep pass, migrate_chat_doc drops userId, keeps a user_id already there and
      otherwise moves userId's value there, and leaves every other top-level field but the
      messages alone. */
  lemma MigrateChatTop(doc: Items)
    ensures var out := MigrateChat(doc, false).0;
            !Has(out, "userId")
            && Get(out, "user_id") == (if Has(doc, "user_id") then Get(doc, "user_id") else Get(doc, "userId"))
            && forall k :: (k != "userId" && k != "user_id" && k != "messages") ==> Get(out, k) == Get(doc, k)
  {
    assert |"userId"| == 6 && |"user_id"| == 7 && |"messages"| == 8;
    TopRenameSpec(doc, "userId", "user_id");
    MessagesPassSpec(TopRename(doc, "userId", "user_id").0);
  }

  /** Without the deep pass, every message is renamed in its place, so none carries
      conversationId; a messages field that is not a list is left alone. */
  lemma MigrateChatMessages(doc: Items)
    ensures var p, q := Get(doc, "messages"), Get(MigrateChat(doc, false).0, "messages");
            (p.Some? && p.value.List? ==> q == Some(List(MessagesAfter(p.value.items))))
            && (!(p.Some? && p.value.List?) ==> q == p)
            && MessagesClean(q)
  {
    var t := TopRename(doc, "userId", "user_id").0;
    assert Get(t, "messages") == Get(doc, "messages") by {
      assert |"userId"| == 6 && |"user_id"| == 7 && |"messages"| == 8;
      TopRenameSpec(doc, "userId", "user_id");
    }
    MessagesPassSpec(t);
  }

  /** Without the deep pass, migrate_chat_doc reports a change exactly when the document it
      returns differs from the one it was given. */
  lemma MigrateChatChanged(doc: Items)
    ensures MigrateChat(doc, false).1 <==> MigrateChat(doc, false).0 != doc
  {
    var t := TopRename(doc, "userId", "user_id");
    assert |"userId"| == 6 && |"user_id"| == 7 && |"messages"| == 8;
    TopRenameSpec(doc, "userId", "user_id");
    MessagesPassSpec(t.0);
  }

  /** migrate_chat_doc is idempotent without the deep pass. */
  lemma MigrateChatIdempotent(doc: Items)
    ensures var out := MigrateChat(doc, false).0;
            MigrateChat(out, false) == (out, false)
  {
    var out := MigrateChat(doc, false).0;
    MigrateChatTop(doc);
    MigrateChatMessages(doc);
    assert |"userId"| == 6 && |"messages"| == 8;
    MessagesPassClean(out);
  }

  /** A chat document reported unchanged, deep pass or not, is the document it was given. */
  lemma MigrateChatUnchanged(doc: Items, deep: bool)
    requires !MigrateChat(doc, deep).1
    ensures MigrateChat(doc, deep).0 == doc
  {
  }

  method MigrateChatDoc(doc: Items, deep: bool) returns (newDoc: Items, changed: bool)
    ensures (newDoc, changed) == MigrateChat(doc, deep)
  {
    newDoc, changed := doc, false;
    if Has(newDoc, "userId") {
      if !Has(newDoc, "user_id") {
        newDoc := Put(newDoc, "user_id", Get(newDoc, "userId").value);
      }
      newDoc := Pop(newDoc, "userId");
      changed := true;
    }
    ghost var top := newDoc;
    var msgs := Get(newDoc, "messages");
    if msgs.Some? && msgs.value.List? {
      var items := msgs.value.items;
      var msgsChanged := false;
      for i := 0 to |items|
        invariant |items| == |msgs.value.items|
        invariant forall j :: 0 <= j < |items| ==> items[j] == if j < i then MessageAfter(msgs.value.items[j]) else msgs.value.items[j]
        invariant msgsChanged <==> exists j :: 0 <= j < i && MessageChanged(msgs.value.items[j])
      {
        var m := items[i];
        if m.Dict? && Has(m.entries, "conversationId") {
          var e := m.entries;
          if !Has(e, "conversation_id") {
            e := Put(e, "conversation_id", Get(e, "conversationId").value);
          }
          e := Pop(e, "conversationId");
          items := items[i := Dict(e)];
          msgsChanged := true;
        }
      }
      assert items == MessagesAfter(msgs.value.items);
      if msgsChanged {
        newDoc := Put(newDoc, "messages", List(items));
        changed := true;
      }
    }
    assert (newDoc, changed) == (MessagesPass(top).0, TopRename(doc, "userId", "user_id").1 || MessagesPass(top).1);
    var deepDoc, deepChanged := DeepPassOf(newDoc, deep);
    newDoc, changed := deepDoc, changed || deepChanged;
  }
}
