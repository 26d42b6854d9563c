/** The Cloud Storage bucket of linebot/api/storage/storage_client.go, modelled as the map
    of objects that its in-memory fake keeps (linebot/api/storage/main_test.go). */
module Storage {
  import opened Wrappers

  type Bytes = seq<bv8>

  /** An object's data and the content type its writer was given ("" when none was set). */
  datatype StoredObject = StoredObject(data: Bytes, contentType: string)

  datatype UserFolders = UserFolders(userId: string, userName: string, rootPath: string)

  datatype FileInfo = FileInfo(
    bucketVideoPath: string,
    bucketThumbnailPath: string,
    localThumbnailPath: string,
    localVideoBlob: Bytes)

  datatype UploadedFile = UploadedFile(name: string, path: string)

  const PlaceholderName := ".folder_placeholder"

  /** The root path of a user's folder and the placeholder object that makes it visible. */
  function RootPath(userId: string): (p: string)
    ensures |p| == |userId| + 1 && p[..|userId|] == userId && p[|userId|] == '/'
  {
    userId + "/"
  }

  function PlaceholderPath(userId: string): (p: string)
    ensures |p| == |userId| + 1 + |PlaceholderName|
    ensures p[..|userId| + 1] == RootPath(userId) && p[|userId| + 1..] == PlaceholderName
  {
    RootPath(userId) + PlaceholderName
  }

  class BucketClient {
    const bucketName: string
    var objects: map<string, StoredObject>
    /** Object names whose writer fails on Write or Close, standing for any upload error. */
    const rejected: set<string>

    constructor (bucketName: string, objects: map<string, StoredObject>, rejected: set<string>)
      ensures this.bucketName == bucketName && this.objects == objects && this.rejected == rejected
    {
      this.bucketName := bucketName;
      this.objects := objects;
      this.rejected := rejected;
    }

    /** Writes the writer's data at `name` unless the writer fails there. */
    method Write(name: string, data: Bytes, contentType: string) returns (err: Option<string>)
      modifies this
      ensures err.None? <==> name !in rejected
      ensures objects == if name in rejected then old(objects)
                         else old(objects)[name := StoredObject(data, contentType)]
    {
      if name in rejected {
        return Some("failed to write object " + name);
      }
      objects := objects[name := StoredObject(data, contentType)];
      err := None;
    }

    /** Writes an empty placeholder object under the user's root path. */
    method CreateUserFolders(userId: string, userName: string) returns (r: Result<UserFolders, string>)
      modifies this
      ensures r.Ok? <==> PlaceholderPath(userId) !in rejected
      ensures r.Ok? ==> r.value == UserFolders(userId, userName, RootPath(userId))
      ensures objects == if r.Err? then old(objects)
                         else old(objects)[PlaceholderPath(userId) := StoredObject([], "")]
    {
      var rootPath := RootPath(userId);
      var placeholderPath := rootPath + PlaceholderName;
      var err := Write(placeholderPath, [], "");
      if err.Some? {
        return Err("failed to create user folder placeholder: " + err.value);
      }
      r := Ok(UserFolders(userId, userName, rootPath));
    }

    /** Stores the blob at the bucket video path as video/mp4; the object name is that path. */
    method UploadVideo(info: FileInfo) returns (r: Result<UploadedFile, string>)
      modifies this
      ensures r.Ok? <==> info.bucketVideoPath !in rejected
      ensures r.Ok? ==> r.value == UploadedFile(info.bucketVideoPath, info.bucketVideoPath)
      ensures objects == if r.Err? then old(objects)
                         else old(objects)[info.bucketVideoPath := StoredObject(info.localVideoBlob, "video/mp4")]
    {
      var err := Write(info.bucketVideoPath, info.localVideoBlob, "video/mp4");
      if err.Some? {
        return Err("failed to upload video: " + err.value);
      }
      r := Ok(UploadedFile(info.bucketVideoPath, info.bucketVideoPath));
    }

    /** Copies the local thumbnail file to the bucket as image/jpeg; `localFiles` is the
        local file system, and a file missing from it is a read error that writes nothing. */
    method UploadThumbnail(info: FileInfo, localFiles: map<string, Bytes>) returns (r: Result<UploadedFile, string>)
      modifies this
      ensures r.Ok? <==> info.localThumbnailPath in localFiles && info.bucketThumbnailPath !in rejected
      ensures r.Ok? ==> r.value == UploadedFile(info.bucketThumbnailPath, info.bucketThumbnailPath)
      ensures objects == if r.Err? then old(objects)
                         else old(objects)[info.bucketThumbnailPath :=
                                StoredObject(localFiles[info.localThumbnailPath], "image/jpeg")]
    {
      if info.localThumbnailPath !in localFiles {
        return Err("failed to read thumbnail file");
      }
      var data := localFiles[info.localThumbnailPath];
      var err := Write(info.bucketThumbnailPath, data, "image/jpeg");
      if err.Some? {
        return Err("failed to copy in-memory thumbnail data to object writer: " + err.value);
      }
      r := Ok(UploadedFile(info.bucketThumbnailPath, info.bucketThumbnailPath));
    }

    /** Removes exactly the named object; a missing object is an error. */
    method DeleteFile(filePath: string) returns (err: Option<string>)
      modifies this
      ensures err.None? <==> filePath in old(objects)
      ensures objects == old(objects) - {filePath}
    {
      if filePath !in objects {
        return Some("failed to delete file " + filePath + ": object not found");
      }
      objects := objects - {filePath};
      err := None;
    }
  }

  /** A folder placeholder never clashes with another user's: distinct IDs give distinct paths
      whenever neither ID contains '/'. */
  lemma PlaceholderPathsDistinct(a: string, b: string)
    requires a != b
    requires '/' !in a && '/' !in b
    ensures PlaceholderPath(a) != PlaceholderPath(b)
  {
    var pa, pb := PlaceholderPath(a), PlaceholderPath(b);
    if |a| < |b| {
      assert pa[|a|] == '/' && pb[|a|] == b[|a|] && b[|a|] in b;
    } else if |b| < |a| {
      assert pb[|b|] == '/' && pa[|b|] == a[|b|] && a[|b|] in a;
    } else {
      var k :| 0 <= k < |a| && a[k] != b[k];
      assert pa[k] == a[k] && pb[k] == b[k];
    }
  }
}
