/** The video pipeline helpers of linebot/app/video_utils.go: the bounded retry against the
    pose-estimation server, the folder, object-path and URL builders, the ffmpeg steps (as
    oracles on the application) and the uploads. */
module VideoUtils {
  import opened Wrappers
  import T = Types
  import C = Commons
  import S = Sessions
  import U = Users
  import St = Storage
  import L = LineClient
  import LB = LineBot
  import A = AppState
  import UI = UI

  const MaxRetries := 6

  /** getVideoFolder: the skill's folder path, or "" for any other skill. */
  function GetVideoFolder(user: U.UserData, skill: string): (folder: string)
    ensures skill == "serve" ==> folder == user.folderPaths.serve
    ensures skill == "smash" ==> folder == user.folderPaths.smash
    ensures skill == "clear" ==> folder == user.folderPaths.clear
    ensures skill !in T.SkillLabels ==> folder == ""
  {
    match skill
    case "serve" => user.folderPaths.serve
    case "smash" => user.folderPaths.smash
    case "clear" => user.folderPaths.clear
    case _ => ""
  }

  /** The object paths: the folder and file name are joined with no separator. */
  function VideoPath(folder: string, filename: string): string { folder + filename + ".mp4" }

  function ThumbnailPath(thumbnailFolder: string, filename: string): string {
    thumbnailFolder + "/" + filename + ".jpeg"
  }

  function ComparisonPath(folder: string, filename: string): string { folder + filename + "_comparison.mp4" }

  /** The direct Cloud Storage URL stored in the portfolio. */
  function ObjectURL(bucket: string, path: string): string { L.StorageHost + bucket + "/" + path }

  /** The video and its comparison video never share an object: the suffixes make the two
      paths of different lengths. */
  lemma ComparisonDistinctFromVideo(folder: string, filename: string)
    ensures ComparisonPath(folder, filename) != VideoPath(folder, filename)
  {
    assert |ComparisonPath(folder, filename)| == |folder| + |filename| + 15;
    assert |VideoPath(folder, filename)| == |folder| + |filename| + 4;
  }

  /** For a bucket path with no scheme and no leading '/', the stored URL is the one assetURL
      builds when the bot shows the work. */
  lemma ObjectURLIsAssetURL(bucket: string, path: string)
    requires !L.HasScheme(path) && (path == [] || path[0] != '/')
    ensures ObjectURL(bucket, path) == L.AssetURL(bucket, path)
  {
    assert L.TrimLeftSlashes(path) == path;
  }

  /** The index of the first successful attempt in [i, n), or n when all of them fail. */
  function FirstSuccess(pose: nat -> Result<A.PoseResponse, string>, i: nat, n: nat): (k: nat)
    requires i <= n
    ensures i <= k <= n
    ensures k < n ==> pose(k).Ok?
    ensures forall j :: i <= j < k ==> pose(j).Err?
    decreases n - i
  {
    if i == n then n else if pose(i).Ok? then i else FirstSuccess(pose, i + 1, n)
  }

  /** analyzeVideo: up to six attempts, stopping at the first success, with a delay after every
      failure including the last; after six failures the last error is returned. */
  method AnalyzeVideo(app: A.App, blob: seq<bv8>, skill: string, handedness: string)
    returns (r: Result<A.PoseResponse, string>, attempts: nat, sleeps: nat)
    ensures 1 <= attempts <= MaxRetries
    ensures var k := FirstSuccess(app.pose, 0, MaxRetries);
      if k < MaxRetries then r == app.pose(k) && attempts == k + 1 && sleeps == k
      else r == app.pose(MaxRetries - 1) && r.Err? && attempts == MaxRetries && sleeps == MaxRetries
  {
    var i := 0;
    var resp: Result<A.PoseResponse, string> := Err("");
    attempts, sleeps := 0, 0;
    while i < MaxRetries
      invariant 0 <= i <= MaxRetries && attempts == i && sleeps == i
      invariant forall j :: 0 <= j < i ==> app.pose(j).Err?
      invariant i > 0 ==> resp == app.pose(i - 1)
    {
      resp := app.pose(i);
      attempts := attempts + 1;
      if resp.Ok? {
        break;
      }
      sleeps := sleeps + 1;
      i := i + 1;
    }
    r := resp;
  }

  /** The expert clip the stitch is made against. */
  function ExpertVideoPath(handedness: string, skill: string): string {
    "./pro_videos/pro_" + handedness + "_" + skill + ".mp4"
  }

  function RawVideoPath(user: U.UserData): string { A.TmpFolder + user.id + "_video.mp4" }

  function StitchedVideoPath(user: U.UserData): string { A.TmpFolder + user.id + "_stitched.mp4" }

  /** stitchVideoWithExpertVideo: ("", "") when the video text is not base64, ("", raw path)
      when ffmpeg fails (the expert clip is missing), (stitched path, raw path) otherwise. */
  function Stitch(app: A.App, user: U.UserData, encoded: string, skill: string, handedness: string)
    : (r: (string, string))
    ensures app.base64(encoded).None? ==> r == ("", "")
    ensures app.base64(encoded).Some? ==> r.1 == RawVideoPath(user)
    ensures r.0 != "" <==> app.base64(encoded).Some? && ExpertVideoPath(handedness, skill) in app.proVideos
    ensures r.0 != "" ==> r.0 == StitchedVideoPath(user)
  {
    if app.base64(encoded).None? then ("", "")
    else if ExpertVideoPath(handedness, skill) !in app.proVideos then ("", RawVideoPath(user))
    else (StitchedVideoPath(user), RawVideoPath(user))
  }

  /** createVideoThumbnail: the first-second frame of the video as ./tmp/<id>.jpeg. */
  function CreateVideoThumbnail(app: A.App, user: U.UserData, videoPath: string): (r: Result<string, string>)
    ensures r.Ok? <==> videoPath !in app.thumbnailFailures
    ensures r.Ok? ==> r.value == A.TmpFolder + user.id + ".jpeg"
  {
    if videoPath in app.thumbnailFailures then Err("ffmpeg failed to extract a thumbnail")
    else Ok(A.TmpFolder + user.id + ".jpeg")
  }

  /** uploadVideoToBucket: the video under the skill's folder, then the thumbnail under the
      thumbnail folder; the thumbnail is not uploaded when the video upload fails. */
  method UploadVideoToBucket(app: A.App, user: U.UserData, session: S.UserSession, blob: seq<bv8>,
                             thumbnailPath: string, filename: string)
    returns (r: Result<(St.UploadedFile, St.UploadedFile), string>)
    modifies app.storage
    ensures var video := VideoPath(GetVideoFolder(user, session.skill), filename);
      var thumb := ThumbnailPath(user.folderPaths.thumbnail, filename);
      (video in app.storage.rejected ==> r.Err? && app.storage.objects == old(app.storage.objects)) &&
      (video !in app.storage.rejected ==>
        var afterVideo := old(app.storage.objects)[video := St.StoredObject(blob, "video/mp4")];
        (r.Ok? <==> thumbnailPath in app.localFiles && thumb !in app.storage.rejected) &&
        (r.Ok? ==> r.value == (St.UploadedFile(video, video), St.UploadedFile(thumb, thumb)) &&
                   app.storage.objects == afterVideo[thumb := St.StoredObject(app.localFiles[thumbnailPath], "image/jpeg")]) &&
        (r.Err? ==> app.storage.objects == afterVideo))
  {
    var folderId := GetVideoFolder(user, session.skill);
    var info := St.FileInfo(VideoPath(folderId, filename), ThumbnailPath(user.folderPaths.thumbnail, filename),
                            thumbnailPath, blob);
    var driveFile := app.storage.UploadVideo(info);
    if driveFile.Err? {
      return Err(driveFile.error);
    }
    var thumbnailFile := app.storage.UploadThumbnail(info, app.localFiles);
    if thumbnailFile.Err? {
      return Err(thumbnailFile.error);
    }
    r := Ok((driveFile.value, thumbnailFile.value));
  }

  /** uploadComparisonVideoToBucket: the stitched video at <folder><name>_comparison.mp4. */
  method UploadComparisonVideoToBucket(app: A.App, user: U.UserData, session: S.UserSession, blob: seq<bv8>,
                                       filename: string)
    returns (r: Result<St.UploadedFile, string>)
    modifies app.storage
    ensures var path := ComparisonPath(GetVideoFolder(user, session.skill), filename);
      (r.Ok? <==> path !in app.storage.rejected) &&
      (r.Ok? ==> r.value == St.UploadedFile(path, path)) &&
      app.storage.objects == if r.Err? then old(app.storage.objects)
                             else old(app.storage.objects)[path := St.StoredObject(blob, "video/mp4")]
  {
    var folderId := GetVideoFolder(user, session.skill);
    var info := St.FileInfo(ComparisonPath(folderId, filename), "", "", blob);
    r := app.storage.UploadVideo(info);
  }

  /** The work updateUserPortfolioVideo stores: the uploaded paths turned into bucket URLs, no
      comparison video, and the placeholder notes. */
  function UploadedWork(app: A.App, date: string, grade: C.GradingOutcome, video: St.UploadedFile,
                        thumbnail: St.UploadedFile): U.Work
  {
    U.Work(date, ObjectURL(app.bucketName, thumbnail.path), ObjectURL(app.bucketName, video.path), "",
           U.NoReflection, U.NoPreviewNote, U.NoAINote, grade)
  }

  /** updateUserPortfolioVideo, called with the video and thumbnail files only (its comparison
      argument is the empty file): the new work goes into the session's skill through the
      portfolio handle, the in-memory session is written, then the user. */
  method UpdateUserPortfolioVideo(app: A.App, user: U.UserData, session: S.UserSession, date: string,
                                  grade: C.GradingOutcome, video: St.UploadedFile, thumbnail: St.UploadedFile)
    returns (panicked: bool, user': U.UserData, err: Option<string>)
    modifies app.users, app.sessions
    ensures panicked <==> session.skill !in T.SkillLabels
    ensures panicked ==> app.users.docs == old(app.users.docs) && app.sessions.docs == old(app.sessions.docs)
    ensures !panicked ==>
      user' == U.Store(user, U.RefOf(session.skill), date, UploadedWork(app, date, grade, video, thumbnail)) &&
      app.sessions.docs == A.Put(old(app.sessions.docs), app.sessions.unavailable, user.id, session) &&
      (err.None? <==> user.id !in app.sessions.unavailable && user.id !in app.users.unavailable) &&
      app.users.docs == if err.Some? then old(app.users.docs) else old(app.users.docs)[user.id := user']
  {
    var ref := U.RefOf(session.skill);
    var bucket := app.bucketName;
    var urlVideo := St.UploadedFile(video.name, ObjectURL(bucket, video.path));
    var urlComparison := St.UploadedFile("", ObjectURL(bucket, ""));
    var urlThumb := St.UploadedFile(thumbnail.name, ObjectURL(bucket, thumbnail.path));
    panicked, user', err :=
      app.users.CreateUserPortfolioVideo(user, ref, date, app.sessions, session, urlVideo, urlComparison, urlThumb, grade);
  }

  const UploadedText := "影片已成功上傳！"

  /** sendVideoUploadedReply: the portfolio of the session's skill, with buttons, behind the
      upload confirmation; SendPortfolio's error is returned to the caller. */
  method SendVideoUploadedReply(app: A.App, token: string, session: S.UserSession, user: U.UserData)
    returns (panicked: bool, err: Option<LB.PortfolioError>, ghost carousels: seq<seq<UI.Bubble>>)
    modifies app.bot
    ensures panicked <==> session.skill !in T.SkillLabels
    ensures panicked ==> app.bot.trace == old(app.bot.trace)
    ensures !panicked ==>
      var works := U.Read(user.portfolio, U.RefOf(session.skill));
      if works == map[] then
        err == Some(LB.NoPortfolioError(T.SkillStrToEnum(session.skill))) && app.bot.trace == old(app.bot.trace)
      else
        var r := LB.Reply(token, LB.PortfolioMessage(UploadedText, carousels));
        UI.PortfolioCarousels(app.bot.bucketName, works, session.skill, session.handedness, true, carousels) &&
        (r !in app.bot.rejected ==> err.None? && app.bot.trace == old(app.bot.trace) + [r]) &&
        (r in app.bot.rejected ==>
           err == Some(LB.ReplyFailed) && app.bot.trace == old(app.bot.trace) + [r, A.DefaultErrorReply(token)])
  {
    var skill := T.SkillStrToEnum(session.skill);
    if skill == -1 {
      T.UnknownSkillHasNoLabel(session.skill);
    }
    panicked, err, carousels := app.bot.SendPortfolio(token, user, skill, session.handedness, UploadedText, true);
  }
}
