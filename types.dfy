/** The enum codecs of api/db/types.go.
    Every enum there is a Go `int8` whose constants are numbered by `iota`.
    `String` and `ChnString` index a fixed array literal, so a code outside
    the array makes Go panic; the model returns `None` for that panic. */
module Types {
  import W = Wrappers

  /** Go's `int8`, the representation of every enum below. */
  newtype Int8 = x: int | -128 <= x < 128

  type UserState = Int8

  const WritingNotes: UserState := 0
  const ChattingWithGPT: UserState := 1
  const ChattingWithTeacher: UserState := 2
  const ViewingDashboard: UserState := 3
  const ViewingExpertVideos: UserState := 4
  const ViewingPortfolio: UserState := 5
  const AnalyzingVideo: UserState := 6
  const None: UserState := 7
  /** Used by the menu handlers but not declared in this file; the model gives it the next free code. */
  const ReadingInstruction: UserState := 8

  /** The rich-menu labels and the feature state each opens, as the menu switch of
      app/handlers.go lists them. */
  const MenuLabels: map<string, UserState> :=
    map["使用說明" := ReadingInstruction, "學習歷程" := ViewingPortfolio, "專家影片" := ViewingExpertVideos,
        "動作分析" := AnalyzingVideo, "預習及反思" := WritingNotes, "GPT對談" := ChattingWithGPT]

  type ActionStep = Int8

  const SelectingSkill: ActionStep := 0
  const WritingPreviewNote: ActionStep := 1
  const WritingReflection: ActionStep := 2
  const UploadingVideo: ActionStep := 3
  const Chatting: ActionStep := 4
  const ChoosingVideoUploadMethod: ActionStep := 5
  const Empty: ActionStep := 6
  /** Used by the postback handlers but not declared in this file; the model gives them the next free codes. */
  const SelectingHandedness: ActionStep := 7
  const SelectingPortfolio: ActionStep := 8

  type Handedness = Int8

  const Left: Handedness := 0
  const Right: Handedness := 1

  type BadmintonSkill = Int8

  const Serve: BadmintonSkill := 0
  const Smash: BadmintonSkill := 1
  const Clear: BadmintonSkill := 2

  const UserStateLabels: seq<string> :=
    ["writing_notes", "chatting_with_gpt", "chatting_with_teacher", "viewing_dashboard",
     "viewing_expert_videos", "viewing_portfolio", "analyzing_video", "none"]

  /** Six labels for seven constants: the array the source indexes. */
  const ActionStepLabels: seq<string> :=
    ["selecting_skill", "writing_preview_note", "writing_reflection", "chatting",
     "choosing_video_upload_method", "empty"]

  const HandednessLabels: seq<string> := ["left", "right"]
  const HandednessChnLabels: seq<string> := ["左手", "右手"]
  const SkillLabels: seq<string> := ["serve", "smash", "clear"]
  const SkillChnLabels: seq<string> := ["發球", "殺球", "高遠球"]

  /** Go's `[...]string{...}[i]`: the element, or None where Go panics with an index out of range. */
  function Index(labels: seq<string>, i: Int8): (r: W.Option<string>)
    ensures r.Some? <==> 0 <= i as int < |labels|
    ensures r.Some? ==> r.value == labels[i as int]
  {
    if 0 <= i as int < |labels| then W.Some(labels[i as int]) else W.None
  }

  function UserStateString(s: UserState): W.Option<string> { Index(UserStateLabels, s) }

  function ActionStepString(s: ActionStep): W.Option<string> { Index(ActionStepLabels, s) }

  function HandednessString(h: Handedness): W.Option<string> { Index(HandednessLabels, h) }

  function HandednessChnString(h: Handedness): W.Option<string> { Index(HandednessChnLabels, h) }

  function SkillString(s: BadmintonSkill): W.Option<string> { Index(SkillLabels, s) }

  function SkillChnString(s: BadmintonSkill): W.Option<string> { Index(SkillChnLabels, s) }

  /** Accepts exactly the two English labels; the result is the constant whose label was given. */
  function HandednessStrToEnum(str: string): (r: W.Result<Handedness, string>)
    ensures r.Ok? <==> str == "left" || str == "right"
    ensures r.Ok? ==> HandednessString(r.value) == W.Some(str)
    ensures r.Err? ==> r.error == "invalid handedness"
  {
    match str
    case "left" => W.Ok(Left)
    case "right" => W.Ok(Right)
    case _ => W.Err("invalid handedness")
  }

  /** Never fails: an unknown label gives the code -1, which no label array covers. */
  function SkillStrToEnum(str: string): (r: BadmintonSkill)
    ensures r == -1 <==> str !in SkillLabels
    ensures r != -1 ==> SkillString(r) == W.Some(str)
  {
    match str
    case "serve" => Serve
    case "smash" => Smash
    case "clear" => Clear
    case _ => -1
  }

  /** Each of the eight UserState constants has a label, and no two share one. */
  lemma UserStateStringInjective(a: UserState, b: UserState)
    requires WritingNotes <= a <= None && WritingNotes <= b <= None
    ensures UserStateString(a).Some?
    ensures UserStateString(a) == UserStateString(b) ==> a == b
  {
    if UserStateString(a) == UserStateString(b) {
      assert UserStateLabels[a as int] == UserStateLabels[b as int];
      assert UserStateLabels[a as int][..3] == UserStateLabels[b as int][..3];
      assert UserStateLabels[a as int][|UserStateLabels[a as int]| - 2] == UserStateLabels[b as int][|UserStateLabels[b as int]| - 2];
    }
  }

  /** ActionStep.String is shifted from UploadingVideo on: UploadingVideo reads as "chatting",
      Chatting and ChoosingVideoUploadMethod as the next constants' labels, and Empty is out of bounds. */
  lemma ActionStepStringShifted()
    ensures ActionStepString(UploadingVideo) == W.Some("chatting")
    ensures ActionStepString(Chatting) == W.Some("choosing_video_upload_method")
    ensures ActionStepString(ChoosingVideoUploadMethod) == W.Some("empty")
    ensures ActionStepString(Empty) == W.None
    ensures forall s: ActionStep :: ActionStepString(s) != W.Some("uploading_video")
  {
  }

  lemma HandednessRoundTrip(h: Handedness)
    requires h == Left || h == Right
    ensures HandednessStrToEnum(HandednessString(h).value) == W.Ok(h)
    ensures HandednessChnString(h).Some?
  {
  }

  lemma SkillRoundTrip(s: BadmintonSkill)
    requires Serve <= s <= Clear
    ensures SkillStrToEnum(SkillString(s).value) == s
    ensures SkillChnString(s).Some?
  {
  }

  /** An unknown skill label decodes to -1, and both of its labels are then out of bounds. */
  lemma UnknownSkillHasNoLabel(str: string)
    requires str !in SkillLabels
    ensures SkillStrToEnum(str) == -1
    ensures SkillString(SkillStrToEnum(str)) == W.None
    ensures SkillChnString(SkillStrToEnum(str)) == W.None
  {
  }
}
