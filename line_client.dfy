/** URL normalisation of linebot/api/line/line_client.go: object paths in the bucket become
    public Cloud Storage URLs, and URLs are left alone. */
module LineClient {

  const HttpScheme := "http://"
  const HttpsScheme := "https://"
  const StorageHost := "https://storage.googleapis.com/"

  predicate HasPrefix(s: string, p: string) {
    |p| <= |s| && s[..|p|] == p
  }

  predicate HasScheme(s: string) {
    HasPrefix(s, HttpScheme) || HasPrefix(s, HttpsScheme)
  }

  /** strings.TrimLeft(s, "/"): drops every leading '/'. */
  function TrimLeftSlashes(s: string): (r: string)
    ensures |r| <= |s| && r == s[|s| - |r|..]
    ensures forall i :: 0 <= i < |s| - |r| ==> s[i] == '/'
    ensures r == [] || r[0] != '/'
  {
    if |s| > 0 && s[0] == '/' then TrimLeftSlashes(s[1..]) else s
  }

  /** assetURL: a fully qualified URL for an object path in `bucket`. */
  function AssetURL(bucket: string, pathOrURL: string): (r: string)
    ensures HasScheme(pathOrURL) ==> r == pathOrURL
    ensures !HasScheme(pathOrURL) ==> r == StorageHost + bucket + "/" + TrimLeftSlashes(pathOrURL)
    ensures HasScheme(r)
  {
    if HasScheme(pathOrURL) then pathOrURL
    else
      var r := StorageHost + bucket + "/" + TrimLeftSlashes(pathOrURL);
      assert r[..|HttpsScheme|] == HttpsScheme by {
        var n := |HttpsScheme|;
        assert StorageHost[..n] == HttpsScheme;
        PrefixOfConcat(StorageHost, bucket, n);
        PrefixOfConcat(StorageHost + bucket, "/", n);
        PrefixOfConcat(StorageHost + bucket + "/", TrimLeftSlashes(pathOrURL), n);
      }
      r
  }

  lemma PrefixOfConcat(a: string, b: string, n: nat)
    requires n <= |a|
    ensures (a + b)[..n] == a[..n]
  {
  }

  /** Normalising twice is normalising once. */
  lemma AssetURLIdempotent(bucket: string, pathOrURL: string)
    ensures AssetURL(bucket, AssetURL(bucket, pathOrURL)) == AssetURL(bucket, pathOrURL)
  {
  }

  /** Leading slashes do not matter: "/a/b" and "a/b" name the same object. */
  lemma {:induction false} LeadingSlashesIgnored(bucket: string, path: string)
    requires !HasScheme(path)
    ensures AssetURL(bucket, "/" + path) == AssetURL(bucket, path)
  {
    var p := "/" + path;
    assert p[1..] == path;
    assert p[0] == '/' && HttpScheme[0] == 'h' && HttpsScheme[0] == 'h';
  }
}
