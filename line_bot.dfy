/** The LINE reply surface the handlers use (the Client of linebot/api/line/line_client.go
    with the senders of api/line/text_message_utils.go and video_message_utils.go).

    Every reply attempt is appended to `trace`; `rejected` lists the replies LINE refuses,
    which is when a sender's call returns an error. */
module LineBot {
  import opened Wrappers
  import T = Types
  import P = Postback
  import U = Users
  import UI

  /** What one reply shows. */
  datatype Body =
    | Text(text: string)
    | SkillPrompt(state: T.UserState, prompt: string)
    | HandednessPrompt
    | UploadPrompt
    | GPTChat(text: string)
    | VideoMessage(video: string, thumbnail: string)
    | PortfolioMessage(text: string, carousels: seq<seq<UI.Bubble>>)
    | ExpertVideos(heading: string, urls: seq<string>)

  datatype Reply = Reply(token: string, body: Body)

  const DefaultText := "請點選選單的項目"
  const DefaultErrorText := "發生錯誤，請重新操作"
  const HandednessPromptText := "請選擇左手或右手"
  const UploadPromptText := "請上傳影片"

  const InstructionText :=
    "歡迎加入羽球教室🏸，以下為選單的使用說明:\n\n" +
    "➡️ 使用說明：呼叫選單各個項目的解說\n\n" +
    "➡️ 學習反思：新增每周各動作的學習反思\n\n" +
    "➡️ 學習歷程：查看個人每周的學習歷程記錄\n\n" +
    "➡️ 影片上傳：上傳個人動作錄影，LINE Bot將自動產生學習歷程\n\n" +
    "➡️ 與GPT對談：與GPT對話，獲取羽球相關資訊\n\n" +
    "➡️ 專家影片：觀看專家示範影片\n\n" +
    "✅ 如需查看課程大綱，請輸入「課程大綱」\n\n" +
    "⚠️ 每周的學習歷程都需有【影片】才能建檔 \n\n" +
    "⚠️ 如需和老師對話，請在發送訊息前確認自己已退出和GPT對談"

  function WelcomeText(name: string): string {
    "Hi " + name + "! 歡迎加入羽球教室🏸\n" + "已建立您的使用者資料🎉🎊 請點選選單的項目開始使用"
  }

  function NoPortfolioText(skillChn: string): string {
    "尚未上傳【" + skillChn + "】的學習反思及影片"
  }

  function ExpertHeading(handChn: string, skillChn: string): string {
    "以下是【" + handChn + "】-【" + skillChn + "】的專家示範影片："
  }

  /** Google Drive download links: a video ID and a thumbnail ID are appended to these. */
  const DriveVideoPrefix := "https://drive.google.com/uc?export=download&id="
  const DriveThumbnailPrefix := "https://drive.usercontent.google.com/download?id="

  /** The video message SendVideoMessage builds for a pair of Drive file IDs. */
  function DriveVideoMessage(videoId: string, thumbnailId: string): Body {
    VideoMessage(DriveVideoPrefix + videoId, DriveThumbnailPrefix + thumbnailId)
  }

  /** The errors SendPortfolio returns: the skill has no works, or the reply failed. */
  datatype PortfolioError = NoPortfolioError(skill: T.BadmintonSkill) | ReplyFailed

  class Client {
    /** The bucket assetURL builds object URLs in, fixed at construction. */
    const bucketName: string
    /** Display names GetProfile returns; a missing user is a profile error. */
    const userNames: map<string, string>
    /** Video bytes GetMessageContent returns by message ID; a missing ID is an error. */
    const videoContents: map<string, seq<bv8>>
    /** The expert-video links per handedness and skill. */
    const expertUrls: map<(T.Handedness, T.BadmintonSkill), seq<string>>
    const rejected: set<Reply>
    var trace: seq<Reply>

    /** NewBotClient: the bucket is the configured one; nothing has been sent. */
    constructor NewBotClient(bucketName: string, userNames: map<string, string>, videoContents: map<string, seq<bv8>>,
                             expertUrls: map<(T.Handedness, T.BadmintonSkill), seq<string>>, rejected: set<Reply>)
      ensures this.bucketName == bucketName && this.userNames == userNames && this.videoContents == videoContents
      ensures this.expertUrls == expertUrls && this.rejected == rejected && trace == []
    {
      this.bucketName := bucketName;
      this.userNames := userNames;
      this.videoContents := videoContents;
      this.expertUrls := expertUrls;
      this.rejected := rejected;
      trace := [];
    }

    /** One ReplyMessage(...).Do(). */
    method Send(r: Reply) returns (failed: bool)
      modifies this
      ensures trace == old(trace) + [r]
      ensures failed <==> r in rejected
    {
      trace := trace + [r];
      failed := r in rejected;
    }

    /** SendReply as the code reads: the wrapped error is returned even when LINE accepted
        the reply, so the result always reports a failure. */
    method SendReplyAsWritten(token: string, msg: string) returns (failed: bool)
      modifies this
      ensures trace == old(trace) + [Reply(token, Text(msg))]
      ensures failed
    {
      var refused := Send(Reply(token, Text(msg)));
      failed := ReplyErrorAsWritten(if refused then Some(RefusedText) else None).Some?;
    }

    /** SendReply as its siblings are written: an error exactly when LINE refuses. */
    method SendReply(token: string, msg: string) returns (failed: bool)
      modifies this
      ensures trace == old(trace) + [Reply(token, Text(msg))]
      ensures failed <==> Reply(token, Text(msg)) in rejected
    {
      var refused := Send(Reply(token, Text(msg)));
      failed := ReplyError(if refused then Some(RefusedText) else None).Some?;
    }

    method SendDefaultReply(token: string) returns (failed: bool)
      modifies this
      ensures trace == old(trace) + [Reply(token, Text(DefaultText))]
      ensures failed <==> Reply(token, Text(DefaultText)) in rejected
    {
      failed := SendReply(token, DefaultText);
    }

    method SendDefaultErrorReply(token: string) returns (failed: bool)
      modifies this
      ensures trace == old(trace) + [Reply(token, Text(DefaultErrorText))]
      ensures failed <==> Reply(token, Text(DefaultErrorText)) in rejected
    {
      failed := SendReply(token, DefaultErrorText);
    }

    /** GetUserName, then the welcome text; a profile failure sends nothing. */
    method SendWelcomeReply(userId: string, token: string) returns (failed: bool)
      modifies this
      ensures userId !in userNames ==> failed && trace == old(trace)
      ensures userId in userNames ==>
        trace == old(trace) + [Reply(token, Text(WelcomeText(userNames[userId])))] &&
        (failed <==> Reply(token, Text(WelcomeText(userNames[userId]))) in rejected)
    {
      if userId !in userNames {
        return true;
      }
      failed := SendReply(token, WelcomeText(userNames[userId]));
    }

    /** SendWelcomeReply as written: its SendReply reports an error every time. */
    method SendWelcomeReplyAsWritten(userId: string, token: string) returns (failed: bool)
      modifies this
      ensures failed
      ensures userId !in userNames ==> trace == old(trace)
      ensures userId in userNames ==> trace == old(trace) + [Reply(token, Text(WelcomeText(userNames[userId])))]
    {
      if userId !in userNames {
        return true;
      }
      failed := SendReplyAsWritten(token, WelcomeText(userNames[userId]));
    }

    method SendInstruction(token: string) returns (failed: bool)
      modifies this
      ensures trace == old(trace) + [Reply(token, Text(InstructionText))]
      ensures failed <==> Reply(token, Text(InstructionText)) in rejected
    {
      failed := Send(Reply(token, Text(InstructionText)));
    }

    /** The prompt with one quick reply per skill, each carrying `state`. */
    method PromptSkillSelection(token: string, state: T.UserState, prompt: string) returns (failed: bool)
      modifies this
      ensures trace == old(trace) + [Reply(token, SkillPrompt(state, prompt))]
      ensures failed <==> Reply(token, SkillPrompt(state, prompt)) in rejected
    {
      failed := Send(Reply(token, SkillPrompt(state, prompt)));
    }

    method PromptHandednessSelection(token: string) returns (failed: bool)
      modifies this
      ensures trace == old(trace) + [Reply(token, HandednessPrompt)]
      ensures failed <==> Reply(token, HandednessPrompt) in rejected
    {
      failed := Send(Reply(token, HandednessPrompt));
    }

    method PromptUploadVideo(token: string) returns (failed: bool)
      modifies this
      ensures trace == old(trace) + [Reply(token, UploadPrompt)]
      ensures failed <==> Reply(token, UploadPrompt) in rejected
    {
      failed := Send(Reply(token, UploadPrompt));
    }

    /** A text with the "結束對話" quick reply that posts the stop payload. */
    method SendGPTChattingModeReply(token: string, msg: string) returns (failed: bool)
      modifies this
      ensures trace == old(trace) + [Reply(token, GPTChat(msg))]
      ensures failed <==> Reply(token, GPTChat(msg)) in rejected
    {
      failed := Send(Reply(token, GPTChat(msg)));
    }

    /** The video reply for a pair of Google Drive file IDs: the links LINE downloads them by. */
    method SendVideoMessage(token: string, videoId: string, thumbnailId: string) returns (failed: bool)
      modifies this
      ensures trace == old(trace) + [Reply(token, VideoMessage(DriveVideoPrefix + videoId, DriveThumbnailPrefix + thumbnailId))]
      ensures failed <==> Reply(token, VideoMessage(DriveVideoPrefix + videoId, DriveThumbnailPrefix + thumbnailId)) in rejected
    {
      var videoLink := DriveVideoPrefix + videoId;
      var thumbnailLink := DriveThumbnailPrefix + thumbnailId;
      failed := Send(Reply(token, VideoMessage(videoLink, thumbnailLink)));
    }

    method SendNoPortfolioReply(token: string, skill: T.BadmintonSkill) returns (failed: bool)
      requires T.SkillChnString(skill).Some?
      modifies this
      ensures trace == old(trace) + [Reply(token, Text(NoPortfolioText(T.SkillChnString(skill).value)))]
      ensures failed <==> Reply(token, Text(NoPortfolioText(T.SkillChnString(skill).value))) in rejected
    {
      failed := Send(Reply(token, Text(NoPortfolioText(T.SkillChnString(skill).value))));
    }

    /** The expert-video reply: the heading in Chinese, then the configured links of that
        handedness and skill (none when nothing is configured). */
    function ExpertVideosReply(hand: T.Handedness, skill: T.BadmintonSkill, token: string): Reply
      requires T.HandednessChnString(hand).Some? && T.SkillChnString(skill).Some?
    {
      Reply(token, ExpertVideos(ExpertHeading(T.HandednessChnString(hand).value, T.SkillChnString(skill).value),
                                if (hand, skill) in expertUrls then expertUrls[(hand, skill)] else []))
    }

    /** The heading and one text per expert link; ChnString of a value outside the
        enum panics before anything is sent. */
    method SendExpertVideos(hand: T.Handedness, skill: T.BadmintonSkill, token: string)
      returns (panicked: bool, failed: bool)
      modifies this
      ensures panicked <==> T.HandednessChnString(hand).None? || T.SkillChnString(skill).None?
      ensures panicked ==> trace == old(trace)
      ensures !panicked ==>
        trace == old(trace) + [ExpertVideosReply(hand, skill, token)] &&
        (failed <==> ExpertVideosReply(hand, skill, token) in rejected)
    {
      var handChn := T.HandednessChnString(hand);
      var skillChn := T.SkillChnString(skill);
      if handChn.None? || skillChn.None? {
        return true, false;
      }
      var urls := if (hand, skill) in expertUrls then expertUrls[(hand, skill)] else [];
      panicked := false;
      failed := Send(Reply(token, ExpertVideos(ExpertHeading(handChn.value, skillChn.value), urls)));
    }

    /** GetVideoContent: the message's bytes. */
    method GetVideoContent(messageId: string) returns (r: Result<seq<bv8>, string>)
      ensures r.Ok? <==> messageId in videoContents
      ensures r.Ok? ==> r.value == videoContents[messageId]
    {
      if messageId in videoContents {
        r := Ok(videoContents[messageId]);
      } else {
        r := Err("failed to get message content");
      }
    }

    /** SendPortfolio: the skill's works as carousels behind `text`. `skill.String()` of a value
        outside the enum panics; no works is a NoPortfolioError with nothing sent; a refused
        reply is followed by the default error reply. */
    method SendPortfolio(token: string, user: U.UserData, skill: T.BadmintonSkill, handedness: string,
                         text: string, showBtns: bool)
      returns (panicked: bool, err: Option<PortfolioError>, ghost carousels: seq<seq<UI.Bubble>>)
      modifies this
      ensures panicked <==> T.SkillString(skill).None?
      ensures panicked ==> trace == old(trace)
      ensures !panicked ==>
        var works := U.Read(user.portfolio, U.RefOf(T.SkillString(skill).value));
        if |works| == 0 then err == Some(NoPortfolioError(skill)) && trace == old(trace)
        else
          var r := Reply(token, PortfolioMessage(text, carousels));
          UI.PortfolioCarousels(bucketName, works, T.SkillString(skill).value, handedness, showBtns, carousels) &&
          (r !in rejected ==> err.None? && trace == old(trace) + [r]) &&
          (r in rejected ==> err == Some(ReplyFailed) && trace == old(trace) + [r, Reply(token, Text(DefaultErrorText))])
      ensures err == Some(NoPortfolioError(skill)) ==> T.SkillChnString(skill).Some?
    {
      var skillName := T.SkillString(skill);
      if skillName.None? {
        return true, None, [];
      }
      panicked := false;
      T.SkillRoundTrip(skill);
      var works := U.GetSkillPortfolio(user.portfolio, skillName.value).value;
      if |works| == 0 {
        return false, Some(NoPortfolioError(skill)), [];
      }
      var cs, _, _ := UI.GetCarousels(bucketName, works, skillName.value, handedness, showBtns);
      carousels := cs;
      var failed := Send(Reply(token, PortfolioMessage(text, cs)));
      if failed {
        var _ := SendDefaultErrorReply(token);
        return false, Some(ReplyFailed), carousels;
      }
      err := None;
    }
  }

  /** The text an SDK error carries; its wording is the SDK's and is not modelled. */
  const RefusedText := "reply refused"

  /** The error SendReply returns as written: `fmt.Errorf` with `%w` builds an error even from
      a nil one, so some error comes back whatever the SDK said. */
  function ReplyErrorAsWritten(sdkError: Option<string>): (r: Option<string>)
    ensures r.Some? && (sdkError.Some? ==> r.value == "failed to reply message: " + sdkError.value)
  {
    Some("failed to reply message: " + if sdkError.Some? then sdkError.value else "%!w(<nil>)")
  }

  /** The error SendReply evidently means to return: the SDK's, wrapped, and none when the
      SDK reports none. */
  function ReplyError(sdkError: Option<string>): (r: Option<string>)
    ensures r.Some? <==> sdkError.Some?
    ensures sdkError.Some? ==> r.value == "failed to reply message: " + sdkError.value
  {
    if sdkError.Some? then Some("failed to reply message: " + sdkError.value) else None
  }

  /** A reply LINE accepts is reported as a failure by SendReply as written, and by no error
      in the corrected form; the two agree on every refused reply. */
  lemma SendReplyAsWrittenDiffers(sdkError: Option<string>)
    ensures ReplyErrorAsWritten(None).Some? && ReplyError(None).None?
    ensures sdkError.Some? ==> ReplyErrorAsWritten(sdkError) == ReplyError(sdkError)
  {
  }
}
