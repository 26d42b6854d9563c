/** Key normalisation of linebot/scripts/firestore_migrate_snake_case.py: to_snake_case,
    correct_common_collapses and deep_snake_keys. Character classes are ASCII, as in the
    script's regular expressions; str.lower and str.isupper are taken on ASCII letters
    only. */
module SnakeCase {
  import opened Wrappers
  import opened PyDict
  import CA = ChatApi

  predicate Upper(c: char) {
    'A' <= c <= 'Z'
  }

  predicate Lower(c: char) {
    'a' <= c <= 'z'
  }

  predicate LowerOrDigit(c: char) {
    Lower(c) || '0' <= c <= '9'
  }

  /** `any(c.isupper() for c in k)`. */
  predicate HasUpper(s: string) {
    exists i :: 0 <= i < |s| && Upper(s[i])
  }

  // ---------------------------------------------------------------------------------------
  // to_snake_case

  /** re.sub(r"([a-z0-9])([A-Z])", r"\1_\2", s), scanning left to right and resuming after
      each two-character match. */
  function SplitLowerUpper(s: string): string
    decreases |s|
  {
    if |s| >= 2 && LowerOrDigit(s[0]) && Upper(s[1]) then [s[0], '_', s[1]] + SplitLowerUpper(s[2..])
    else if s == [] then []
    else [s[0]] + SplitLowerUpper(s[1..])
  }

  /** The length of the run of capitals `s` starts with. */
  function UpperRun(s: string): (n: nat)
    ensures n <= |s| && (forall i :: 0 <= i < n ==> Upper(s[i])) && (n < |s| ==> !Upper(s[n]))
    decreases |s|
  {
    if s != [] && Upper(s[0]) then 1 + UpperRun(s[1..]) else 0
  }

  /** re.sub(r"([A-Z]+)([A-Z][a-z])", r"\1_\2", s), one step of the left-to-right scan at a
      time. */
  function SplitAcronym(s: string): string
    decreases |s|
  {
    if s == [] then [] else AcronymPiece(s) + SplitAcronym(s[AcronymStepLength(s)..])
  }

  /** How far one step of the scan gets from the start of `s`. A match can only begin at the
      start of a run of capitals, and the greedy group gives back just the run's last
      capital, so a run of two or more followed by a lower-case letter is a match that ends
      after that letter; any other run holds no match at any of its positions, and a
      character that is not a capital is passed over alone. */
  function AcronymStepLength(s: string): (k: nat)
    requires s != []
    ensures 1 <= k <= |s|
  {
    if !Upper(s[0]) then 1
    else
      var n := UpperRun(s);
      if 2 <= n < |s| && Lower(s[n]) then n + 1 else n
  }

  /** What that step writes: the match with '_' before the run's last capital, or the
      characters passed over. */
  function AcronymPiece(s: string): string
    requires s != []
  {
    if !Upper(s[0]) then [s[0]]
    else
      var n := UpperRun(s);
      if 2 <= n < |s| && Lower(s[n]) then s[..n - 1] + "_" + s[n - 1..n + 1] else s[..n]
  }

  /** s.replace("-", "_"). */
  function Dashes(s: string): (r: string)
    ensures |r| == |s| && forall i :: 0 <= i < |s| ==> r[i] == if s[i] == '-' then '_' else s[i]
  {
    seq(|s|, i requires 0 <= i < |s| => if s[i] == '-' then '_' else s[i])
  }

  function ToSnakeCase(name: string): string {
    CA.ToLower(Dashes(SplitAcronym(SplitLowerUpper(name))))
  }

  /** The result has no capital and no '-'. */
  lemma ToSnakeCaseShape(name: string)
    ensures var r := ToSnakeCase(name);
            forall i :: 0 <= i < |r| ==> !Upper(r[i]) && r[i] != '-'
  {
    var t := Dashes(SplitAcronym(SplitLowerUpper(name)));
    LowerEach(t);
  }

  /** A name without capitals or dashes is already in snake case. */
  lemma ToSnakeCaseKeeps(name: string)
    requires !HasUpper(name) && forall i :: 0 <= i < |name| ==> name[i] != '-'
    ensures ToSnakeCase(name) == name
  {
    assert SplitLowerUpper(name) == name by {
      assert NoPair(name);
      LowerUpperKeeps(name);
    }
    assert SplitAcronym(name) == name by {
      SingleCapitals(name);
    }
    assert Dashes(name) == name;
    LowerEach(name);
  }

  /** There is no lower-case letter or digit directly before a capital. */
  predicate NoPair(s: string) {
    forall i :: 0 <= i < |s| - 1 ==> !(LowerOrDigit(s[i]) && Upper(s[i + 1]))
  }

  /** No two capitals stand next to each other. */
  predicate NoRun(s: string) {
    forall i :: 0 <= i < |s| - 1 ==> !(Upper(s[i]) && Upper(s[i + 1]))
  }

  predicate AllUpper(s: string) {
    forall i :: 0 <= i < |s| ==> Upper(s[i])
  }

  /** The first substitution works piecewise wherever no lower-case letter or digit meets a
      capital at the seam. */
  lemma {:induction false} LowerUpperConcat(a: string, b: string)
    requires a == [] || b == [] || !(LowerOrDigit(a[|a| - 1]) && Upper(b[0]))
    ensures SplitLowerUpper(a + b) == SplitLowerUpper(a) + SplitLowerUpper(b)
    decreases |a|
  {
    if a == [] {
      EmptyLeft(b);
    } else if |a| == 1 {
      DropHead(a[0], b);
      assert a == [a[0]];
    } else {
      var k := if LowerOrDigit(a[0]) && Upper(a[1]) then 2 else 1;
      LowerUpperConcat(a[k..], b);
      LowerUpperStep(a, b, k);
    }
  }

  /** One step of LowerUpperConcat: the head the scan emits for `a` is the same in `a + b`. */
  lemma LowerUpperStep(a: string, b: string, k: nat)
    requires 2 <= |a| && k == (if LowerOrDigit(a[0]) && Upper(a[1]) then 2 else 1)
    requires SplitLowerUpper(a[k..] + b) == SplitLowerUpper(a[k..]) + SplitLowerUpper(b)
    ensures SplitLowerUpper(a + b) == SplitLowerUpper(a) + SplitLowerUpper(b)
  {
    var h := if k == 2 then [a[0], '_', a[1]] else [a[0]];
    assert SplitLowerUpper(a + b) == h + SplitLowerUpper(a[k..] + b) by {
      assert (a + b)[0] == a[0] && (a + b)[1] == a[1];
      SuffixOfConcat(a, b, k);
    }
    assert SplitLowerUpper(a) == h + SplitLowerUpper(a[k..]);
    Assoc(h, SplitLowerUpper(a[k..]), SplitLowerUpper(b));
  }

  lemma Assoc(x: string, y: string, z: string)
    ensures x + (y + z) == (x + y) + z
  {
  }

  /** Without a lower-case letter or digit before a capital, nothing is inserted. */
  lemma {:induction false} LowerUpperKeeps(s: string)
    requires NoPair(s)
    ensures SplitLowerUpper(s) == s
    decreases |s|
  {
    if s != [] {
      assert NoPair(s[1..]) by {
        forall i | 0 <= i < |s[1..]| - 1 ensures !(LowerOrDigit(s[1..][i]) && Upper(s[1..][i + 1])) {
          assert s[1..][i] == s[i + 1] && s[1..][i + 1] == s[i + 2];
        }
      }
      LowerUpperKeeps(s[1..]);
    }
  }

  /** One lower-case letter or digit before a capital gets a '_'. */
  lemma LowerUpperOnce(p: string, l: char, u: char, q: string)
    requires NoPair(p) && LowerOrDigit(l) && Upper(u) && NoPair(q)
    ensures SplitLowerUpper(p + [l, u] + q) == p + [l, '_', u] + q
  {
    var w := [l, u] + q;
    Assoc(p, [l, u], q);
    assert SplitLowerUpper(p + w) == SplitLowerUpper(p) + SplitLowerUpper(w) by {
      LowerUpperConcat(p, w);
    }
    assert SplitLowerUpper(w) == [l, '_', u] + q by {
      DropPair(l, u, q);
      LowerUpperKeeps(q);
    }
    assert SplitLowerUpper(p) == p by {
      LowerUpperKeeps(p);
    }
    Assoc(p, [l, '_', u], q);
  }

  lemma EmptyLeft(b: string)
    ensures [] + b == b
  {
  }

  lemma DropHead(c: char, b: string)
    ensures ([c] + b)[1..] == b
  {
  }

  lemma DropPair(c: char, d: char, b: string)
    ensures ([c, d] + b)[2..] == b
  {
  }

  /** A run of capitals followed by anything else is read as that run. */
  lemma {:induction false} UpperRunOf(u: string, t: string)
    requires AllUpper(u) && (t == [] || !Upper(t[0]))
    ensures UpperRun(u + t) == |u|
    decreases |u|
  {
    if u != [] {
      assert (u + t)[1..] == u[1..] + t;
      UpperRunOf(u[1..], t);
    } else {
      assert u + t == t;
    }
  }

  /** A run of capitals that ends inside `a` is the same run in `a + b`. */
  lemma RunInside(a: string, b: string)
    requires a != [] && !Upper(a[|a| - 1])
    ensures UpperRun(a + b) == UpperRun(a) < |a|
  {
    var n := UpperRun(a);
    assert a + b == a[..n] + (a[n..] + b);
    UpperRunOf(a[..n], a[n..] + b);
  }

  /** The second substitution works piecewise after any character that is not a capital. */
  lemma {:induction false} AcronymConcat(a: string, b: string)
    requires a == [] || !Upper(a[|a| - 1])
    ensures SplitAcronym(a + b) == SplitAcronym(a) + SplitAcronym(b)
    decreases |a|
  {
    if a != [] {
      var k := AcronymStepLength(a);
      var t := a[k..];
      LastOfSuffix(a, k);
      AcronymConcat(t, b);
      AcronymStep(a, b, k);
    } else {
      EmptyConcat(b);
    }
  }

  /** One step of AcronymConcat: the piece the scan emits for `a` is the same in `a + b`. */
  lemma AcronymStep(a: string, b: string, k: nat)
    requires a != [] && !Upper(a[|a| - 1]) && k == AcronymStepLength(a)
    requires SplitAcronym(a[k..] + b) == SplitAcronym(a[k..]) + SplitAcronym(b)
    ensures SplitAcronym(a + b) == SplitAcronym(a) + SplitAcronym(b)
  {
    var h := AcronymPiece(a);
    var t := a[k..];
    assert SplitAcronym(a + b) == h + SplitAcronym(t + b) by {
      PieceStable(a, b);
      SuffixOfConcat(a, b, k);
    }
    assert SplitAcronym(a) == h + SplitAcronym(t);
    Assoc(h, SplitAcronym(t), SplitAcronym(b));
  }

  lemma SuffixOfConcat(a: string, b: string, k: nat)
    requires k <= |a|
    ensures (a + b)[k..] == a[k..] + b
  {
  }

  lemma InnerOfConcat(a: string, b: string, i: nat, j: nat)
    requires i <= j <= |a|
    ensures (a + b)[i..j] == a[i..j]
  {
  }

  lemma EmptyConcat(b: string)
    ensures SplitAcronym([] + b) == SplitAcronym([]) + SplitAcronym(b)
  {
    EmptyLeft(b);
    EmptyLeft(SplitAcronym(b));
  }

  lemma LastOfSuffix(a: string, k: nat)
    requires k <= |a|
    ensures a[k..] == [] || a[k..][|a[k..]| - 1] == a[|a| - 1]
  {
  }

  /** A string ending in a character that is not a capital starts with the same step of the
      scan whatever follows it. */
  lemma PieceStable(a: string, b: string)
    requires a != [] && !Upper(a[|a| - 1])
    ensures AcronymStepLength(a + b) == AcronymStepLength(a) && AcronymPiece(a + b) == AcronymPiece(a)
  {
    if Upper(a[0]) {
      var n := UpperRun(a);
      assert UpperRun(a + b) == n < |a| by {
        RunInside(a, b);
      }
      InnerOfConcat(a, b, 0, n);
      if 2 <= n && Lower(a[n]) {
        InnerOfConcat(a, b, 0, n - 1);
        InnerOfConcat(a, b, n - 1, n + 1);
      }
    }
  }

  /** Where no two capitals meet, each step passes over one character. */
  lemma SingleStep(s: string)
    requires s != [] && NoRun(s)
    ensures AcronymStepLength(s) == 1 && AcronymPiece(s) == [s[0]]
  {
    if Upper(s[0]) {
      assert UpperRun(s) == 1 by {
        assert s == [s[0]] + s[1..];
        assert AllUpper([s[0]]);
        UpperRunOf([s[0]], s[1..]);
      }
    }
  }

  /** Where no two capitals meet, the second substitution finds nothing. */
  lemma {:induction false} SingleCapitals(s: string)
    requires NoRun(s)
    ensures SplitAcronym(s) == s
    decreases |s|
  {
    if s != [] {
      SingleStep(s);
      assert NoRun(s[1..]) by {
        forall i | 0 <= i < |s[1..]| - 1 ensures !(Upper(s[1..][i]) && Upper(s[1..][i + 1])) {
          assert s[1..][i] == s[i + 1] && s[1..][i + 1] == s[i + 2];
        }
      }
      SingleCapitals(s[1..]);
      assert [s[0]] + s[1..] == s;
    }
  }

  /** A run of capitals with nothing after it is left alone. */
  lemma AcronymRun(u: string)
    requires AllUpper(u)
    ensures SplitAcronym(u) == u
  {
    if u != [] {
      assert UpperRun(u) == |u| by {
        assert u + [] == u;
        UpperRunOf(u, []);
      }
      assert u[..|u|] == u && u[|u|..] == [];
    }
  }

  /** An acronym before a capitalised word: the '_' goes before the word's capital. */
  lemma AcronymWord(a: string, c: char, l: char, w: string)
    requires AllUpper(a) && a != [] && Upper(c) && Lower(l) && NoRun(w)
    ensures SplitAcronym(a + [c, l] + w) == a + "_" + [c, l] + w
  {
    var s := a + [c, l] + w;
    assert SplitAcronym(s) == a + "_" + [c, l] + SplitAcronym(w) by {
      WordPiece(a, c, l, w);
    }
    assert SplitAcronym(w) == w by {
      SingleCapitals(w);
    }
  }

  /** The first step of the scan over an acronym and a capitalised word is the match. */
  lemma WordPiece(a: string, c: char, l: char, w: string)
    requires AllUpper(a) && a != [] && Upper(c) && Lower(l)
    ensures var s := a + [c, l] + w;
            AcronymStepLength(s) == |a| + 2 && AcronymPiece(s) == a + "_" + [c, l] && s[|a| + 2..] == w
  {
    var s := a + [c, l] + w;
    var n := |a| + 1;
    assert UpperRun(s) == n by {
      assert AllUpper(a + [c]);
      assert s == (a + [c]) + ([l] + w);
      UpperRunOf(a + [c], [l] + w);
    }
    assert s[n] == l;
    assert s[..n - 1] == a;
    assert s[n - 1..n + 1] == [c, l];
  }

  /** An acronym before a capitalised word and then a trailing run of capitals. */
  lemma AcronymWordRun(a: string, c: char, l: char, w: string, u: string)
    requires AllUpper(a) && a != [] && Upper(c) && Lower(l) && NoRun(w) && (w == [] || !Upper(w[|w| - 1]))
    requires AllUpper(u)
    ensures SplitAcronym(a + [c, l] + w + u) == a + "_" + [c, l] + w + u
  {
    var p := a + [c, l] + w;
    assert p[|p| - 1] == if w == [] then l else w[|w| - 1];
    assert SplitAcronym(p + u) == SplitAcronym(p) + SplitAcronym(u) by {
      AcronymConcat(p, u);
    }
    assert SplitAcronym(p) == a + "_" + [c, l] + w by {
      AcronymWord(a, c, l, w);
    }
    assert SplitAcronym(u) == u by {
      AcronymRun(u);
    }
  }

  /** ToLower lowers each character in place. */
  lemma {:induction false} LowerEach(s: string)
    ensures |CA.ToLower(s)| == |s| && forall i :: 0 <= i < |s| ==> CA.ToLower(s)[i] == CA.LowerChar(s[i])
    decreases |s|
  {
    if |s| > 0 {
      LowerEach(s[..|s| - 1]);
    }
  }

  /** `r` is `s.replace("-", "_").lower()`, character by character. */
  predicate LowersTo(s: string, r: string) {
    |s| == |r| && forall i :: 0 <= i < |s| ==> r[i] == CA.LowerChar(if s[i] == '-' then '_' else s[i])
  }

  /** The last step of to_snake_case gives `r` when `r` lowers `s` character by character. */
  lemma LowerDashesOf(s: string, r: string)
    requires LowersTo(s, r)
    ensures CA.ToLower(Dashes(s)) == r
  {
    LowerEach(Dashes(s));
  }

  /** The examples the script's documentation gives. */
  lemma PreviewNoteExample()
    ensures ToSnakeCase("previewNote") == "preview_note"
  {
    PreviewNoteParts();
    PreviewNoteClasses();
    assert SplitLowerUpper("previewNote") == "preview_Note" by {
      LowerUpperOnce("previe", 'w', 'N', "ote");
    }
    assert SplitAcronym("preview_Note") == "preview_Note" by {
      SingleCapitals("preview_Note");
    }
    LowerDashesOf("preview_Note", "preview_note");
  }

  lemma PreviewNoteParts()
    ensures "previe" + ['w', 'N'] + "ote" == "previewNote"
    ensures "previe" + ['w', '_', 'N'] + "ote" == "preview_Note"
  {
  }

  lemma PreviewNoteClasses()
    ensures NoPair("previe") && NoPair("ote") && NoRun("preview_Note")
    ensures LowersTo("preview_Note", "preview_note")
  {
  }

  lemma AINoteExample()
    ensures ToSnakeCase("AINote") == "ai_note"
  {
    AINoteParts();
    assert SplitLowerUpper("AINote") == "AINote" by {
      LowerUpperKeeps("AINote");
    }
    assert SplitAcronym("AINote") == "AI_Note" by {
      AcronymWord("AI", 'N', 'o', "te");
    }
    LowerDashesOf("AI_Note", "ai_note");
  }

  lemma AINoteParts()
    ensures NoPair("AINote")
    ensures "AI" + ['N', 'o'] + "te" == "AINote" && "AI" + "_" + ['N', 'o'] + "te" == "AI_Note"
    ensures AllUpper("AI") && NoRun("te")
    ensures LowersTo("AI_Note", "ai_note")
  {
  }

  lemma GPTConversationIDExample()
    ensures ToSnakeCase("GPTConversationID") == "gpt_conversation_id"
  {
    GPTConversationIDSplits();
    GPTConversationIDClasses();
    GPTConversationIDLowers();
    assert SplitLowerUpper("GPTConversationID") == "GPTConversation_ID" by {
      LowerUpperOnce("GPTConversatio", 'n', 'I', "D");
    }
    assert SplitAcronym("GPTConversation_ID") == "GPT_Conversation_ID" by {
      AcronymWordRun("GPT", 'C', 'o', "nversation_", "ID");
    }
    LowerDashesOf("GPT_Conversation_ID", "gpt_conversation_id");
  }

  lemma GPTConversationIDSplits()
    ensures "GPTConversatio" + ['n', 'I'] + "D" == "GPTConversationID"
    ensures "GPTConversatio" + ['n', '_', 'I'] + "D" == "GPTConversation_ID"
    ensures "GPT" + ['C', 'o'] + "nversation_" + "ID" == "GPTConversation_ID"
    ensures "GPT" + "_" + ['C', 'o'] + "nversation_" + "ID" == "GPT_Conversation_ID"
  {
  }

  lemma GPTConversationIDClasses()
    ensures NoPair("GPTConversatio") && NoPair("D")
    ensures AllUpper("GPT") && NoRun("nversation_") && AllUpper("ID")
  {
  }

  lemma GPTConversationIDLowers()
    ensures LowersTo("GPT_Conversation_ID", "gpt_conversation_id")
  {
  }

  // ---------------------------------------------------------------------------------------
  // correct_common_collapses

  predicate StartsWith(s: string, prefix: string) {
    |prefix| <= |s| && s[..|prefix|] == prefix
  }

  /** `key.startswith(prefix) and not key.startswith(prefix + "_") and len(key) > len(prefix)`. */
  predicate Collapsed(key: string, prefix: string) {
    StartsWith(key, prefix) && !StartsWith(key, prefix + "_") && |key| > |prefix|
  }

  function CorrectCollapses(key: string): string {
    if key == "gptconversation_id" then "gpt_conversation_id"
    else if key == "gptconversationids" then "gpt_conversation_ids"
    else if key == "ainote" then "ai_note"
    else if Collapsed(key, "gpt") then "gpt_" + key[3..]
    else if Collapsed(key, "ai") then "ai_" + key[2..]
    else key
  }

  /** The prefix loop: a leading "gpt", tried first, or "ai" not already followed by '_'
      and not the whole key gets one. */
  function PrefixRule(key: string): string {
    if Collapsed(key, "gpt") then "gpt_" + key[3..]
    else if Collapsed(key, "ai") then "ai_" + key[2..]
    else key
  }

  /** `r` is `key` with one '_' inserted before position `i`. */
  predicate InsertsAt(key: string, r: string, i: nat) {
    i <= |key| && r == key[..i] + "_" + key[i..]
  }

  /** Two of the three listed corrections are what the prefix loop gives anyway; only
      "gptconversationids" gets a second '_' from the table. */
  lemma TableAgrees(key: string)
    ensures CorrectCollapses(key) == if key == "gptconversationids" then "gpt_conversation_ids" else PrefixRule(key)
  {
    if key == "gptconversation_id" {
      GptEntry();
    } else if key == "ainote" {
      AiEntry();
    }
  }

  lemma GptEntry()
    ensures Collapsed("gptconversation_id", "gpt") && "gpt_" + "gptconversation_id"[3..] == "gpt_conversation_id"
  {
    var key := "gptconversation_id";
    assert key[..3] == "gpt" && key[..4][3] == 'c' && key[3..] == "conversation_id";
  }

  lemma AiEntry()
    ensures !Collapsed("ainote", "gpt") && Collapsed("ainote", "ai") && "ai_" + "ainote"[2..] == "ai_note"
  {
    var key := "ainote";
    assert key[..3][0] == 'a' && key[..2] == "ai" && key[..3][2] == 'n' && key[2..] == "note";
  }

  /** After the prefix loop the key starts with no collapsed "gpt" or "ai"; the loop inserts
      one '_' after the prefix, and changes the key exactly when it started with one. */
  lemma PrefixRuleSpec(key: string)
    ensures var r := PrefixRule(key);
            (r == key || InsertsAt(key, r, 3) || InsertsAt(key, r, 2))
            && !Collapsed(r, "gpt") && !Collapsed(r, "ai")
    ensures PrefixRule(key) == key <==> !Collapsed(key, "gpt") && !Collapsed(key, "ai")
  {
    var r := PrefixRule(key);
    if Collapsed(key, "gpt") {
      assert key[..3] + "_" + key[3..] == r;
      assert r[..4] == "gpt_";
      assert r[..2][0] == 'g';
      assert |r| == |key| + 1;
    } else if Collapsed(key, "ai") {
      assert key[..2] + "_" + key[2..] == r;
      assert r[..3] == "ai_";
      assert |r| == |key| + 1;
    }
  }

  /** A corrected key needs no further correction. */
  lemma CollapsesIdempotent(key: string)
    ensures CorrectCollapses(CorrectCollapses(key)) == CorrectCollapses(key)
  {
    var r := CorrectCollapses(key);
    TableAgrees(key);
    TableAgrees(r);
    PrefixRuleSpec(r);
    if key == "gptconversationids" {
      assert r[..4] == "gpt_" && r[..3] == "gpt" && r[..2][0] == 'g';
    } else {
      PrefixRuleSpec(key);
      assert r != "gptconversationids" by {
        if InsertsAt(key, r, 3) {
          assert r[3] == '_';
        } else if InsertsAt(key, r, 2) {
          assert r[2] == '_';
        }
      }
    }
  }

  lemma GptIdsLower()
    ensures !HasUpper(CorrectCollapses("gptconversationids"))
  {
    var r := CorrectCollapses("gptconversationids");
    assert r == "gpt_conversation_ids";
    forall j | 0 <= j < |r| ensures !Upper(r[j]) {
      assert 'a' <= r[j] <= 'z' || r[j] == '_';
    }
  }

  /** The correction only adds '_', so it brings in no capital. */
  lemma CollapsesNoUpper(key: string)
    requires !HasUpper(key)
    ensures !HasUpper(CorrectCollapses(key))
  {
    var r := CorrectCollapses(key);
    if key == "gptconversationids" {
      GptIdsLower();
    } else if r != key {
      TableAgrees(key);
      PrefixRuleSpec(key);
      var i := if InsertsAt(key, r, 3) then 3 else 2;
      assert InsertsAt(key, r, i);
      forall j | 0 <= j < |r| ensures !Upper(r[j]) {
        if j < i {
          assert r[j] == key[j];
        } else if j == i {
          assert r[j] == '_';
        } else {
          assert r[j] == key[j - 1];
        }
      }
    }
  }

  // ---------------------------------------------------------------------------------------
  // deep_snake_keys

  /** The key deep_snake_keys gives `k`. */
  function NewKey(k: string): string {
    CorrectCollapses(if HasUpper(k) then ToSnakeCase(k) else k)
  }

  /** A normalised key has no capital and normalises to itself. */
  lemma NewKeyNormal(k: string)
    ensures !HasUpper(NewKey(k)) && NewKey(NewKey(k)) == NewKey(k)
  {
    if HasUpper(k) {
      ToSnakeCaseShape(k);
      CollapsesNoUpper(ToSnakeCase(k));
    } else {
      CollapsesNoUpper(k);
    }
    CollapsesIdempotent(if HasUpper(k) then ToSnakeCase(k) else k);
  }

  function DeepSnake(x: Value): (r: Value)
    ensures r.Atom? <==> x.Atom?
    ensures r.List? <==> x.List?
    ensures x.List? ==> |r.items| == |x.items|
    decreases x, 1
  {
    match x
    case Atom(_) => x
    case List(items) => List(seq(|items|, i requires 0 <= i < |items| => DeepSnake(items[i])))
    case Dict(entries) => Dict(SnakeEntries(x, |entries|))
  }

  /** new_map after the loop has seen the first `n` entries: an entry whose normalised key is
      already present is dropped unless its key is already normal, in which case it
      overwrites. */
  function SnakeEntries(x: Value, n: nat): Items
    requires x.Dict? && n <= |x.entries|
    decreases x, 0, n
  {
    if n == 0 then []
    else
      var m := SnakeEntries(x, n - 1);
      var k := x.entries[n - 1].0;
      var nk := NewKey(k);
      if Has(m, nk) && nk != k then m else Put(m, nk, DeepSnake(x.entries[n - 1].1))
  }

  /** Entry j of `x` keeps its own key and already normal: it wins its normalised key. */
  predicate SelfAt(x: Value, j: int, n: string)
    requires x.Dict?
  {
    0 <= j < |x.entries| && x.entries[j].0 == n && NewKey(n) == n
  }

  /** The first of the first `m` entries whose key normalises to `n`, if any. */
  function FirstTo(x: Value, m: nat, n: string): (j: Option<nat>)
    requires x.Dict? && m <= |x.entries|
    ensures j.Some? ==> j.value < m && NewKey(x.entries[j.value].0) == n
    ensures j.Some? ==> forall i :: 0 <= i < j.value ==> NewKey(x.entries[i].0) != n
    ensures j.None? ==> forall i :: 0 <= i < m ==> NewKey(x.entries[i].0) != n
  {
    if m == 0 then None
    else
      var f := FirstTo(x, m - 1, n);
      if f.Some? then f else if NewKey(x.entries[m - 1].0) == n then Some(m - 1) else None
  }

  /** After the first `m` entries, key `n` is present exactly when one of them normalises
      to it. */
  lemma {:induction false} SnakeHas(x: Value, m: nat, n: string)
    requires x.Dict? && m <= |x.entries|
    ensures Has(SnakeEntries(x, m), n) <==> FirstTo(x, m, n).Some?
    decreases m
  {
    if m > 0 {
      SnakeHas(x, m - 1, n);
      var prev := SnakeEntries(x, m - 1);
      var k := x.entries[m - 1].0;
      var nk := NewKey(k);
      var v := DeepSnake(x.entries[m - 1].1);
      var kept := Has(prev, nk) && nk != k;
      SnakeEntriesStep(x, m - 1);
      var f := FirstTo(x, m - 1, n);
      if f.Some? {
        assert FirstTo(x, m, n) == f && Has(prev, n);
        assert Has(SnakeEntries(x, m), n) by {
          if !kept {
            GetPut(prev, nk, v, n);
          }
        }
      } else if nk == n {
        assert FirstTo(x, m, n) == Some(m - 1);
        assert Has(SnakeEntries(x, m), n) by {
          if !kept {
            GetPut(prev, nk, v, n);
          }
        }
      } else {
        assert FirstTo(x, m, n).None? && !Has(prev, n);
        assert !Has(SnakeEntries(x, m), n) by {
          if !kept {
            GetPut(prev, nk, v, n);
          }
        }
      }
    }
  }

  /** An entry already in normal form gives its key its value, whatever stands before or
      after it. */
  lemma {:induction false} SnakeSelf(x: Value, m: nat, n: string, j: nat)
    requires x.Dict? && m <= |x.entries| && UniqueKeys(x.entries) && j < m && SelfAt(x, j, n)
    ensures Get(SnakeEntries(x, m), n) == Some(DeepSnake(x.entries[j].1))
    decreases m
  {
    var prev := SnakeEntries(x, m - 1);
    var k := x.entries[m - 1].0;
    var nk := NewKey(k);
    var v := DeepSnake(x.entries[m - 1].1);
    if j == m - 1 {
      assert SnakeEntries(x, m) == Put(prev, n, v);
      GetPut(prev, n, v, n);
    } else {
      assert Get(prev, n) == Some(DeepSnake(x.entries[j].1)) by {
        SnakeSelf(x, m - 1, n, j);
      }
      assert x.entries[j].0 != k;
      if nk == n {
        assert SnakeEntries(x, m) == prev;
      } else if !(Has(prev, nk) && nk != k) {
        assert SnakeEntries(x, m) == Put(prev, nk, v);
        GetPut(prev, nk, v, n);
      }
    }
  }

  /** Without such an entry, the key keeps the value of the first entry that normalises to
      it. */
  lemma {:induction false} SnakeFirst(x: Value, m: nat, n: string)
    requires x.Dict? && m <= |x.entries| && FirstTo(x, m, n).Some?
    requires forall j :: 0 <= j < m ==> !SelfAt(x, j, n)
    ensures Get(SnakeEntries(x, m), n) == Some(DeepSnake(x.entries[FirstTo(x, m, n).value].1))
    decreases m
  {
    var prev := SnakeEntries(x, m - 1);
    var k := x.entries[m - 1].0;
    var nk := NewKey(k);
    var v := DeepSnake(x.entries[m - 1].1);
    var kept := Has(prev, nk) && nk != k;
    assert SnakeEntries(x, m) == if kept then prev else Put(prev, nk, v);
    SnakeHas(x, m - 1, n);
    assert !SelfAt(x, m - 1, n);
    var f := FirstTo(x, m - 1, n);
    var g := FirstTo(x, m, n).value;
    if f.Some? {
      assert g == f.value;
      SnakeFirst(x, m - 1, n);
      var w := Some(DeepSnake(x.entries[f.value].1));
      assert Get(prev, n) == w;
      assert Get(SnakeEntries(x, m), n) == w by {
        if !kept {
          GetPut(prev, nk, v, n);
          assert nk != n;
        }
      }
    } else {
      assert g == m - 1 && nk == n;
      assert Get(SnakeEntries(x, m), n) == Some(v) by {
        assert !kept;
        GetPut(prev, nk, v, n);
      }
    }
  }

  /** The key set of the result is the set of normalised keys, and a key already in normal
      form beats any other key that normalises to it, wherever it stands. */
  lemma DeepSnakeKeys(x: Value, n: string)
    requires x.Dict? && UniqueKeys(x.entries)
    ensures Has(DeepSnake(x).entries, n) <==> exists j :: 0 <= j < |x.entries| && NewKey(x.entries[j].0) == n
    ensures forall j :: SelfAt(x, j, n) ==> Get(DeepSnake(x).entries, n) == Some(DeepSnake(x.entries[j].1))
    ensures (forall j :: !SelfAt(x, j, n)) && FirstTo(x, |x.entries|, n).Some? ==>
              Get(DeepSnake(x).entries, n) == Some(DeepSnake(x.entries[FirstTo(x, |x.entries|, n).value].1))
  {
    SnakeHas(x, |x.entries|, n);
    if exists j :: 0 <= j < |x.entries| && NewKey(x.entries[j].0) == n {
      var j :| 0 <= j < |x.entries| && NewKey(x.entries[j].0) == n;
      assert FirstTo(x, |x.entries|, n).Some?;
    }
    forall j | SelfAt(x, j, n) ensures Get(DeepSnake(x).entries, n) == Some(DeepSnake(x.entries[j].1)) {
      SnakeSelf(x, |x.entries|, n, j);
    }
    if (forall j :: !SelfAt(x, j, n)) && FirstTo(x, |x.entries|, n).Some? {
      SnakeFirst(x, |x.entries|, n);
    }
  }

  /** deep_snake_keys, with its loops. */
  method DeepSnakeKeysOf(x: Value) returns (r: Value)
    ensures r == DeepSnake(x)
    decreases x, 2
  {
    match x
    case Atom(_) =>
      r := x;
    case List(_) =>
      r := SnakeList(x);
    case Dict(_) =>
      r := SnakeDict(x);
  }

  /** `[deep_snake_keys(x) for x in obj]`. */
  method SnakeList(x: Value) returns (r: Value)
    requires x.List?
    ensures r == DeepSnake(x)
    decreases x, 1
  {
    var items := x.items;
    var out: seq<Value> := [];
    var i := 0;
    while i < |items|
      invariant 0 <= i <= |items| && |out| == i
      invariant forall j :: 0 <= j < i ==> out[j] == DeepSnake(items[j])
    {
      var y := DeepSnakeKeysOf(items[i]);
      out := out + [y];
      i := i + 1;
    }
    r := List(out);
  }

  /** The loop of deep_snake_keys takes one more entry. */
  lemma SnakeEntriesStep(x: Value, i: nat)
    requires x.Dict? && i < |x.entries|
    ensures var m, k := SnakeEntries(x, i), x.entries[i].0;
            SnakeEntries(x, i + 1) ==
              if Has(m, NewKey(k)) && NewKey(k) != k then m else Put(m, NewKey(k), DeepSnake(x.entries[i].1))
  {
  }

  /** The loop that builds new_map. */
  method SnakeDict(x: Value) returns (r: Value)
    requires x.Dict?
    ensures r == DeepSnake(x)
    decreases x, 1
  {
    var m: Items := [];
    var i := 0;
    while i < |x.entries|
      invariant 0 <= i <= |x.entries|
      invariant m == SnakeEntries(x, i)
    {
      m := SnakeEntry(x, i, m);
      i := i + 1;
    }
    r := Dict(m);
  }

  /** One turn of deep_snake_keys' loop: the entry's normalised key is written, unless
      another key already wrote it and this one is not in normal form. */
  method SnakeEntry(x: Value, i: nat, m: Items) returns (m': Items)
    requires x.Dict? && i < |x.entries| && m == SnakeEntries(x, i)
    ensures m' == SnakeEntries(x, i + 1)
    decreases x, 0
  {
    var k := x.entries[i].0;
    var nk := NewKey(k);
    SnakeEntriesStep(x, i);
    m' := m;
    if !(Has(m, nk) && nk != k) {
      assert x.entries[i] in x.entries;
      var v := DeepSnakeKeysOf(x.entries[i].1);
      m' := Put(m, nk, v);
    }
  }

}
