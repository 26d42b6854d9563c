/** Exact-match postback decoding (api/line/postback_utils.go) over the six payload
    structs of linebot/api/line/postback_data.go.

    JSON text decoding itself is not modelled: the input is what `json.Unmarshal`
    yields for the raw data, either a failure or an object from keys to values. */
module Postback {
  import opened Wrappers

  /** The kinds of JSON value; only strings and booleans can fill a payload field. */
  datatype JsonValue = JString(s: string) | JBool(b: bool) | JNull | JNumber | JArray | JObject

  /** The outcome of decoding the raw postback text into a generic map. */
  datatype JsonDoc = NotAnObject | Object(fields: map<string, JsonValue>)

  /** The six structs that embed `PostbackData`. */
  datatype Kind = Video | WritingNote | SelectingSkill | SelectingHandedness | AnalyzingWithGPT | StopGPT

  datatype FieldType = StringField | BoolField

  /** A struct field as reflection sees it: its `json` tag and its Go type. */
  datatype FieldSpec = FieldSpec(tag: string, ty: FieldType)

  datatype Payload =
    | VideoPostback(videoId: string, thumbnailId: string)
    | WritingNotePostback(state: string, workDate: string, actionStep: string, skill: string)
    | SelectingSkillPostback(state: string, skill: string)
    | SelectingHandednessPostback(handedness: string)
    | AnalyzingWithGPTPostback(handedness: string, workDate: string, skill: string)
    | StopGPTPostback(stop: bool)

  datatype DecodeError = BadJson | UnexpectedField | MissingOrExtraFields | TypeMismatch | RequiredMissing

  /** The struct declarations, field by field in declaration order. */
  function Fields(k: Kind): seq<FieldSpec> {
    match k
    case Video => [FieldSpec("video_id", StringField), FieldSpec("thumbnail_id", StringField)]
    case WritingNote =>
      [FieldSpec("state", StringField), FieldSpec("work_date", StringField),
       FieldSpec("action_step", StringField), FieldSpec("skill", StringField)]
    case SelectingSkill => [FieldSpec("state", StringField), FieldSpec("skill", StringField)]
    case SelectingHandedness => [FieldSpec("handedness", StringField)]
    case AnalyzingWithGPT =>
      [FieldSpec("handedness", StringField), FieldSpec("work_date", StringField), FieldSpec("skill", StringField)]
    case StopGPT => [FieldSpec("stop", BoolField)]
  }

  /** The non-empty json tags of a field list. */
  function TagsOf(fs: seq<FieldSpec>): set<string> {
    if fs == [] then {}
    else TagsOf(fs[..|fs| - 1]) + (if fs[|fs| - 1].tag != "" then {fs[|fs| - 1].tag} else {})
  }

  /** The key set a payload of kind k must have. */
  function TagSet(k: Kind): set<string> {
    TagsOf(Fields(k))
  }

  /** getFieldNames: collects the non-empty tags into a set, field by field. */
  method GetFieldNames(k: Kind) returns (names: set<string>)
    ensures names == TagSet(k)
  {
    var fs := Fields(k);
    names := {};
    var i := 0;
    while i < |fs|
      invariant 0 <= i <= |fs|
      invariant names == TagsOf(fs[..i])
    {
      assert fs[..i + 1][..i] == fs[..i];
      if fs[i].tag != "" {
        names := names + {fs[i].tag};
      }
      i := i + 1;
    }
    assert fs[..i] == fs;
  }

  /** Whether a JSON value fills a field of the given type with a non-zero value
      (`validate:"required"` rejects "" and false; null leaves the zero value). */
  predicate Filled(v: JsonValue, ty: FieldType) {
    match ty
    case StringField => v.JString? && v.s != ""
    case BoolField => v.JBool? && v.b
  }

  /** Whether a JSON value can be unmarshalled into a field of the given type at all. */
  predicate Assignable(v: JsonValue, ty: FieldType) {
    v.JNull? || (ty == StringField && v.JString?) || (ty == BoolField && v.JBool?)
  }

  /** The value under a key; an absent key reads as null. */
  function Get(m: map<string, JsonValue>, tag: string): JsonValue {
    if tag in m then m[tag] else JNull
  }

  /** The string a field receives: null leaves Go's zero value "". */
  function Str(m: map<string, JsonValue>, tag: string): string {
    if Get(m, tag).JString? then Get(m, tag).s else ""
  }

  /** The second unmarshal into the struct, then struct validation. */
  function Build(k: Kind, m: map<string, JsonValue>): (r: Result<Payload, DecodeError>)
    ensures r.Ok? ==> KindOf(r.value, k)
  {
    var fs := Fields(k);
    if exists i :: 0 <= i < |fs| && !Assignable(Get(m, fs[i].tag), fs[i].ty) then Err(TypeMismatch)
    else if exists i :: 0 <= i < |fs| && !Filled(Get(m, fs[i].tag), fs[i].ty) then Err(RequiredMissing)
    else
      match k
      case Video => Ok(VideoPostback(Str(m, "video_id"), Str(m, "thumbnail_id")))
      case WritingNote =>
        Ok(WritingNotePostback(Str(m, "state"), Str(m, "work_date"), Str(m, "action_step"), Str(m, "skill")))
      case SelectingSkill => Ok(SelectingSkillPostback(Str(m, "state"), Str(m, "skill")))
      case SelectingHandedness => Ok(SelectingHandednessPostback(Str(m, "handedness")))
      case AnalyzingWithGPT =>
        Ok(AnalyzingWithGPTPostback(Str(m, "handedness"), Str(m, "work_date"), Str(m, "skill")))
      case StopGPT => Ok(StopGPTPostback(Get(m, "stop").JBool? && Get(m, "stop").b))
  }

  /** handlePostbackData as a function of its input. */
  function Decode(k: Kind, doc: JsonDoc): (r: Result<Payload, DecodeError>)
    ensures r.Ok? ==> KindOf(r.value, k)
    ensures doc.NotAnObject? ==> r == Err(BadJson)
  {
    if doc.NotAnObject? then Err(BadJson)
    else if !(doc.fields.Keys <= TagSet(k)) then Err(UnexpectedField)
    else if |doc.fields.Keys| != |TagSet(k)| then Err(MissingOrExtraFields)
    else Build(k, doc.fields)
  }

  /** The same kind of struct as the payload returned for it. */
  predicate KindOf(p: Payload, k: Kind) {
    match k
    case Video => p.VideoPostback?
    case WritingNote => p.WritingNotePostback?
    case SelectingSkill => p.SelectingSkillPostback?
    case SelectingHandedness => p.SelectingHandednessPostback?
    case AnalyzingWithGPT => p.AnalyzingWithGPTPostback?
    case StopGPT => p.StopGPTPostback?
  }

  /** handlePostbackData: rejects non-objects, then any key that is not a tag, then a key
      count different from the tag count, then type and `required` violations. */
  method HandlePostbackData(k: Kind, doc: JsonDoc) returns (r: Result<Payload, DecodeError>)
    ensures r == Decode(k, doc)
  {
    if doc.NotAnObject? {
      return Err(BadJson);
    }
    var rawMap := doc.fields;
    var expectedFields := GetFieldNames(k);
    var remaining := rawMap.Keys;
    while remaining != {}
      invariant remaining <= rawMap.Keys
      invariant rawMap.Keys - remaining <= expectedFields
      decreases |remaining|
    {
      var field :| field in remaining;
      if field !in expectedFields {
        return Err(UnexpectedField);
      }
      remaining := remaining - {field};
    }
    if |rawMap| != |expectedFields| {
      return Err(MissingOrExtraFields);
    }
    SubsetOfSameSize(rawMap.Keys, expectedFields);
    r := Build(k, rawMap);
  }

  lemma {:induction false} SubsetOfSameSize<T>(a: set<T>, b: set<T>)
    requires a <= b && |a| == |b|
    ensures a == b
  {
    if a != b {
      var x :| x in b && x !in a;
      assert a <= b - {x};
      SubsetCard(a, b - {x});
    }
  }

  lemma {:induction false} SubsetCard<T>(a: set<T>, b: set<T>)
    requires a <= b
    ensures |a| <= |b|
  {
    if a != {} {
      var x :| x in a;
      SubsetCard(a - {x}, b - {x});
    }
  }

  /** A payload is accepted exactly when the input is an object whose key set is the
      struct's tag set and every field holds a non-zero value of its type; the
      result is then a payload of that kind. */
  lemma DecodeAcceptsExactly(k: Kind, doc: JsonDoc)
    ensures Decode(k, doc).Ok? <==>
      doc.Object? && doc.fields.Keys == TagSet(k) &&
      forall i :: 0 <= i < |Fields(k)| ==> Filled(Get(doc.fields, Fields(k)[i].tag), Fields(k)[i].ty)
    ensures Decode(k, doc).Ok? ==> KindOf(Decode(k, doc).value, k)
  {
    if doc.Object? {
      assert Build(k, doc.fields).Ok? <==>
               forall i :: 0 <= i < |Fields(k)| ==> Filled(Get(doc.fields, Fields(k)[i].tag), Fields(k)[i].ty) by {
        BuildOk(k, doc.fields);
      }
      if doc.fields.Keys <= TagSet(k) && |doc.fields.Keys| == |TagSet(k)| {
        SubsetOfSameSize(doc.fields.Keys, TagSet(k));
      }
    }
  }

  /** The struct builds exactly when every field is filled: a filled field is also
      assignable, so the type check never rejects what validation accepts. */
  lemma BuildOk(k: Kind, m: map<string, JsonValue>)
    ensures Build(k, m).Ok? <==> forall i :: 0 <= i < |Fields(k)| ==> Filled(Get(m, Fields(k)[i].tag), Fields(k)[i].ty)
  {
    var fs := Fields(k);
    forall i | 0 <= i < |fs| && Filled(Get(m, fs[i].tag), fs[i].ty) ensures Assignable(Get(m, fs[i].tag), fs[i].ty) {
    }
  }

  /** Any key outside the tag set rejects the payload, whatever else it holds. */
  lemma UnexpectedKeyRejected(k: Kind, doc: JsonDoc, key: string)
    requires doc.Object? && key in doc.fields && key !in TagSet(k)
    ensures Decode(k, doc) == Err(UnexpectedField)
  {
  }

  /** A decoded stop payload always asks to stop: `{"stop": false}` fails `required`. */
  lemma StopPayloadIsTrue(doc: JsonDoc)
    requires Decode(StopGPT, doc).Ok?
    ensures Decode(StopGPT, doc).value == StopGPTPostback(true)
  {
    assert "stop" in TagSet(StopGPT) by { assert Fields(StopGPT)[0].tag == "stop"; }
    DecodeAcceptsExactly(StopGPT, doc);
    assert Filled(Get(doc.fields, Fields(StopGPT)[0].tag), Fields(StopGPT)[0].ty);
  }

  /** The tag set of each struct, written out. */
  function Tags(k: Kind): set<string> {
    match k
    case Video => {"video_id", "thumbnail_id"}
    case WritingNote => {"state", "work_date", "action_step", "skill"}
    case SelectingSkill => {"state", "skill"}
    case SelectingHandedness => {"handedness"}
    case AnalyzingWithGPT => {"handedness", "work_date", "skill"}
    case StopGPT => {"stop"}
  }

  lemma {:induction false} TagsOfMembers(fs: seq<FieldSpec>, t: string)
    ensures t in TagsOf(fs) <==> t != "" && exists i :: 0 <= i < |fs| && fs[i].tag == t
  {
    if fs != [] {
      var init := fs[..|fs| - 1];
      TagsOfMembers(init, t);
      if t in TagsOf(init) {
        var i :| 0 <= i < |init| && init[i].tag == t;
        assert fs[i].tag == t;
      }
      if t != "" && t !in TagsOf(init) && exists i :: 0 <= i < |fs| && fs[i].tag == t {
        var i :| 0 <= i < |fs| && fs[i].tag == t;
      }
    }
  }

  lemma TagSetIsTags(k: Kind)
    ensures TagSet(k) == Tags(k)
  {
    var fs := Fields(k);
    forall t | t in Tags(k) ensures t in TagSet(k) {
      TagsOfMembers(fs, t);
      var i := if t == fs[0].tag then 0 else if t == fs[1].tag then 1 else if t == fs[2].tag then 2 else 3;
      assert fs[i].tag == t;
    }
    forall t | t in TagSet(k) ensures t in Tags(k) {
      TagsOfMembers(fs, t);
      var i :| 0 <= i < |fs| && fs[i].tag == t;
      assert i == 0 || i == 1 || i == 2 || i == 3;
    }
  }

  /** The six tag sets are pairwise distinct. */
  lemma TagSetsDistinct(k1: Kind, k2: Kind)
    requires k1 != k2
    ensures TagSet(k1) != TagSet(k2)
  {
    TagSetIsTags(k1);
    TagSetIsTags(k2);
    var tell := map[Video := "video_id", WritingNote := "action_step", SelectingSkill := "state",
                    SelectingHandedness := "handedness", AnalyzingWithGPT := "work_date", StopGPT := "stop"];
    if tell[k1] !in Tags(k2) {
      assert tell[k1] in Tags(k1);
    } else {
      assert tell[k2] in Tags(k2) && tell[k2] !in Tags(k1);
    }
  }

  /** So one raw payload decodes as at most one kind. */
  lemma AtMostOneKind(doc: JsonDoc, k1: Kind, k2: Kind)
    requires Decode(k1, doc).Ok? && Decode(k2, doc).Ok?
    ensures k1 == k2
  {
    DecodeAcceptsExactly(k1, doc);
    DecodeAcceptsExactly(k2, doc);
    if k1 != k2 {
      TagSetsDistinct(k1, k2);
    }
  }

  /** The kind of struct a payload is. */
  function PayloadKind(p: Payload): (k: Kind)
    ensures KindOf(p, k)
  {
    match p
    case VideoPostback(_, _) => Video
    case WritingNotePostback(_, _, _, _) => WritingNote
    case SelectingSkillPostback(_, _) => SelectingSkill
    case SelectingHandednessPostback(_) => SelectingHandedness
    case AnalyzingWithGPTPostback(_, _, _) => AnalyzingWithGPT
    case StopGPTPostback(_) => StopGPT
  }

  /** What json.Marshal writes for a payload when a button is built, read back as an object:
      one key per json tag. */
  function Encode(p: Payload): (doc: JsonDoc)
    ensures doc.Object? && doc.fields.Keys == Tags(PayloadKind(p))
  {
    match p
    case VideoPostback(v, t) => Object(map["video_id" := JString(v), "thumbnail_id" := JString(t)])
    case WritingNotePostback(s, d, a, k) =>
      Object(map["state" := JString(s), "work_date" := JString(d), "action_step" := JString(a), "skill" := JString(k)])
    case SelectingSkillPostback(s, k) => Object(map["state" := JString(s), "skill" := JString(k)])
    case SelectingHandednessPostback(h) => Object(map["handedness" := JString(h)])
    case AnalyzingWithGPTPostback(h, d, k) =>
      Object(map["handedness" := JString(h), "work_date" := JString(d), "skill" := JString(k)])
    case StopGPTPostback(b) => Object(map["stop" := JBool(b)])
  }

  /** Every field holds a non-zero value, as `validate:"required"` demands. */
  predicate Complete(p: Payload) {
    match p
    case VideoPostback(v, t) => v != "" && t != ""
    case WritingNotePostback(s, d, a, k) => s != "" && d != "" && a != "" && k != ""
    case SelectingSkillPostback(s, k) => s != "" && k != ""
    case SelectingHandednessPostback(h) => h != ""
    case AnalyzingWithGPTPostback(h, d, k) => h != "" && d != "" && k != ""
    case StopGPTPostback(b) => b
  }

  /** A button's payload decodes back to itself exactly when all its fields are filled;
      otherwise the handler rejects it as missing a required field. */
  lemma EncodeDecode(p: Payload)
    ensures Complete(p) ==> Decode(PayloadKind(p), Encode(p)) == Ok(p)
    ensures !Complete(p) ==> Decode(PayloadKind(p), Encode(p)) == Err(RequiredMissing)
  {
    var k := PayloadKind(p);
    TagSetIsTags(k);
    var m := Encode(p).fields;
    assert Decode(k, Encode(p)) == Build(k, m);
    BuildEncoded(p);
  }

  lemma BuildEncoded(p: Payload)
    ensures Complete(p) ==> Build(PayloadKind(p), Encode(p).fields) == Ok(p)
    ensures !Complete(p) ==> Build(PayloadKind(p), Encode(p).fields) == Err(RequiredMissing)
  {
    var k := PayloadKind(p);
    var m := Encode(p).fields;
    var fs := Fields(k);
    match p
    case VideoPostback(_, _) =>
      assert !Complete(p) ==> !Filled(Get(m, fs[0].tag), fs[0].ty) || !Filled(Get(m, fs[1].tag), fs[1].ty);
    case WritingNotePostback(_, _, _, _) =>
      assert !Complete(p) ==>
        !Filled(Get(m, fs[0].tag), fs[0].ty) || !Filled(Get(m, fs[1].tag), fs[1].ty) || !Filled(Get(m, fs[2].tag), fs[2].ty) || !Filled(Get(m, fs[3].tag), fs[3].ty);
    case SelectingSkillPostback(_, _) =>
      assert !Complete(p) ==> !Filled(Get(m, fs[0].tag), fs[0].ty) || !Filled(Get(m, fs[1].tag), fs[1].ty);
    case SelectingHandednessPostback(_) =>
      assert !Complete(p) ==> !Filled(Get(m, fs[0].tag), fs[0].ty);
    case AnalyzingWithGPTPostback(_, _, _) =>
      assert !Complete(p) ==>
        !Filled(Get(m, fs[0].tag), fs[0].ty) || !Filled(Get(m, fs[1].tag), fs[1].ty) || !Filled(Get(m, fs[2].tag), fs[2].ty);
    case StopGPTPostback(_) =>
      assert !Complete(p) ==> !Filled(Get(m, fs[0].tag), fs[0].ty);
  }
}
