/**
 * Face-scan videos (UserScanFaceVideoService): the storage path of an uploaded video, the
 * recovery of that path from the video's public address, and the create / update / delete
 * operations over the video table and the scan-face bucket.
 */
module ScanFaceVideo {
  import opened Wrappers
  import opened Text
  import opened Naming
  import opened RecordingStorage
  import SupabaseStorage

  /** The environment variables read here; "" stands for unset. */
  datatype ScanEnv = ScanEnv(supabaseUrl: string, serviceRoleKey: string, scanFaceBucket: string)

  /** The shared Supabase client exists exactly when its address and key are set. */
  predicate Configured(env: ScanEnv) {
    env.supabaseUrl != "" && env.serviceRoleKey != ""
  }

  const DefaultScanFaceBucket: string := "scan-face"
  const NotConfigured: string := "Supabase não configurado"
  const UserNotFound: string := "Usuário não encontrado"
  const VideoNotFound: string := "Vídeo não encontrado"
  const UrlRequired: string := "É necessário fornecer videoUrl ou fazer upload de um arquivo"

  function Bucket(env: ScanEnv): string {
    if env.scanFaceBucket != "" then env.scanFaceBucket else DefaultScanFaceBucket
  }

  /** `<date>/<user>/<file>` inside the scan-face bucket. */
  function StoragePath(day: string, userName: string, filename: string): string {
    day + "/" + userName + "/" + filename
  }

  /**
   * uploadToStorage: `file` is the uploaded file's base name, `user` the name lookup,
   * `outcome` what reading the file and the upload call do. Every failure, the unconfigured
   * client included, carries the upload prefix.
   */
  function UploadVideo(env: ScanEnv, filename: string, day: string, user: NameLookup, outcome: Outcome): (r: Result<string>)
    ensures r.Err? ==> StartsWith(r.message, UploadErrorPrefix)
    ensures r.Ok? <==> Configured(env) && outcome.Stored?
    ensures !Configured(env) ==> r == Err(UploadErrorPrefix + NotConfigured)
  {
    if !Configured(env) then Err(UploadErrorPrefix + NotConfigured)
    else match outcome
      case Stored =>
        Ok(SupabaseStorage.PublicUrl(env.supabaseUrl, Bucket(env), StoragePath(day, DisplayName(user), filename)))
      case IoFailed(m) => Err(UploadErrorPrefix + m)
      case StoreRejected(m) => Err(UploadErrorPrefix + SupabaseErrorPrefix + m)
  }

  /** `parts.indexOf(x)`. */
  function IndexOf(parts: seq<string>, x: string): (i: int)
    ensures -1 <= i < |parts|
    ensures i == -1 <==> x !in parts
    ensures i >= 0 ==> parts[i] == x && x !in parts[..i]
    decreases |parts|
  {
    if |parts| == 0 then -1
    else if parts[0] == x then 0
    else
      var j := IndexOf(parts[1..], x);
      assert j >= 0 ==> parts[..j + 1] == [parts[0]] + parts[1..][..j];
      if j < 0 then -1 else j + 1
  }

  /** Whether some segment contains "storage" (the `findIndex` test). */
  predicate HasStorageSegment(parts: seq<string>) {
    exists k :: 0 <= k < |parts| && Contains(parts[k], "storage")
  }

  /** The segments after the first one equal to the bucket, joined by '/'; the whole address when there is none. */
  function ExtractPath(url: string, bucket: string): string {
    var parts := Split(url, '/');
    Join(parts[IndexOf(parts, bucket) + 1..], '/')
  }

  /** Without a bucket segment the index is -1, so the whole address is taken as the path. */
  lemma ExtractWithoutBucket(url: string, bucket: string)
    requires bucket !in Split(url, '/')
    ensures ExtractPath(url, bucket) == url
  {
    var parts := Split(url, '/');
    assert parts[0..] == parts;
    JoinSplit(url, '/');
  }

  /** deleteFromStorage: the path it removes, or None when it skips the removal. It never throws. */
  function DeletionTarget(env: ScanEnv, url: string): (target: Option<string>)
    ensures target.None? <==> !Configured(env) || !HasStorageSegment(Split(url, '/'))
  {
    if !Configured(env) || !HasStorageSegment(Split(url, '/')) then None
    else Some(ExtractPath(url, Bucket(env)))
  }

  lemma SplitSingle(s: string)
    requires '/' !in s
    ensures Split(s, '/') == [s]
  {
    SplitJoin([s], '/');
  }

  lemma IndexOfAfter(a: seq<string>, x: string, b: seq<string>)
    requires x !in a
    ensures IndexOf(a + [x] + b, x) == |a|
  {
    var parts := a + [x] + b;
    var i := IndexOf(parts, x);
    assert parts[|a|] == x;
  }

  /** Round trip: the path is recovered from `prefix/bucket/path` when the prefix has no segment equal to the bucket. */
  lemma ExtractRoundTrip(prefix: string, bucket: string, path: string)
    requires '/' !in bucket
    requires bucket !in Split(prefix, '/')
    ensures ExtractPath(prefix + "/" + bucket + "/" + path, bucket) == path
  {
    var url := prefix + "/" + bucket + "/" + path;
    assert url == prefix + ['/'] + (bucket + ['/'] + path);
    SplitConcat(prefix, bucket + "/" + path, '/');
    SplitConcat(bucket, path, '/');
    SplitSingle(bucket);
    var a := Split(prefix, '/');
    var parts := Split(url, '/');
    assert parts == a + [bucket] + Split(path, '/');
    IndexOfAfter(a, bucket, Split(path, '/'));
    assert parts[|a| + 1..] == Split(path, '/');
    JoinSplit(path, '/');
  }

  lemma PublicPrefixSegments(projectUrl: string)
    ensures Split(projectUrl + "/" + SupabaseStorage.PublicRoutePath, '/')
         == Split(projectUrl, '/') + SupabaseStorage.PublicRoute
  {
    SupabaseStorage.PublicRouteSegments();
    SplitConcat(projectUrl, SupabaseStorage.PublicRoutePath, '/');
  }

  lemma StorageSegmentPresent(projectUrl: string, rest: string)
    ensures HasStorageSegment(Split(projectUrl + "/" + SupabaseStorage.PublicRoutePath + "/" + rest, '/'))
  {
    var prefix := projectUrl + "/" + SupabaseStorage.PublicRoutePath;
    assert prefix + "/" + rest == prefix + ['/'] + rest;
    SplitConcat(prefix, rest, '/');
    PublicPrefixSegments(projectUrl);
    var parts := Split(prefix + "/" + rest, '/');
    var k := |Split(projectUrl, '/')|;
    assert parts[k] == "storage";
    assert Contains(parts[k], "storage");
  }

  /** A public address leads deleteFromStorage back to its object when the bucket name is not a segment of the project address or of the route. */
  lemma DeleteFindsPublicObject(env: ScanEnv, path: string)
    requires Configured(env)
    requires '/' !in Bucket(env)
    requires Bucket(env) !in Split(env.supabaseUrl, '/') && Bucket(env) !in SupabaseStorage.PublicRoute
    ensures DeletionTarget(env, SupabaseStorage.PublicUrl(env.supabaseUrl, Bucket(env), path)) == Some(path)
  {
    var bucket := Bucket(env);
    var prefix := env.supabaseUrl + "/" + SupabaseStorage.PublicRoutePath;
    var url := SupabaseStorage.PublicUrl(env.supabaseUrl, bucket, path);
    assert url == prefix + "/" + bucket + "/" + path;
    PublicPrefixSegments(env.supabaseUrl);
    ExtractRoundTrip(prefix, bucket, path);
    StorageSegmentPresent(env.supabaseUrl, bucket + "/" + path);
    assert prefix + "/" + (bucket + "/" + path) == url;
  }

  /** Uploading a video and then deleting it by its stored address removes the object that was uploaded. */
  lemma DeleteFindsUploadedObject(env: ScanEnv, filename: string, day: string, user: NameLookup)
    requires Configured(env)
    requires '/' !in Bucket(env)
    requires Bucket(env) !in Split(env.supabaseUrl, '/') && Bucket(env) !in SupabaseStorage.PublicRoute
    ensures DeletionTarget(env, UploadVideo(env, filename, day, user, Stored).value)
         == Some(StoragePath(day, DisplayName(user), filename))
  {
    DeleteFindsPublicObject(env, StoragePath(day, DisplayName(user), filename));
  }

  /** The bucket's objects after deleteFromStorage(url). */
  function AfterRemoval(env: ScanEnv, objects: set<string>, url: string, removeFails: bool): set<string> {
    var t := DeletionTarget(env, url);
    if t.Some? && !removeFails then objects - {t.value} else objects
  }

  /** A video row. */
  datatype Video = Video(id: nat, userId: string, videoUrl: string)

  function IndexOfVideo(videos: seq<Video>, id: nat): (i: int)
    ensures -1 <= i < |videos|
    ensures i == -1 <==> forall k :: 0 <= k < |videos| ==> videos[k].id != id
    ensures i >= 0 ==> videos[i].id == id
    decreases |videos|
  {
    if |videos| == 0 then -1
    else if videos[0].id == id then 0
    else
      var j := IndexOfVideo(videos[1..], id);
      if j < 0 then -1 else j + 1
  }

  /** The user table as the service sees it: user id to (optional) name. */
  function UserLookup(users: map<string, Option<string>>, userId: string): NameLookup {
    if userId in users then Found(users[userId]) else NotFound
  }

  /** The address create stores: an uploaded file's address overrides the one given; none at all is an error. */
  function CreateUrl(env: ScanEnv, users: map<string, Option<string>>, userId: string, givenUrl: string,
                     file: Option<string>, day: string, outcome: Outcome): (r: Result<string>)
    ensures r.Ok? ==> r.value != ""
    ensures userId !in users ==> r == Err(UserNotFound)
    ensures userId in users && file.None? ==> r == (if givenUrl == "" then Err(UrlRequired) else Ok(givenUrl))
    ensures userId in users && file.Some? ==> r == UploadVideo(env, file.value, day, UserLookup(users, userId), outcome)
  {
    if userId !in users then Err(UserNotFound)
    else if file.Some? then
      UploadVideo(env, file.value, day, UserLookup(users, userId), outcome)
    else if givenUrl == "" then Err(UrlRequired)
    else Ok(givenUrl)
  }

  /** The scan-face video table, the users it checks and the objects in the scan-face bucket. */
  class ScanFaceVideos {
    var users: map<string, Option<string>>
    var videos: seq<Video>
    var nextId: nat
    var objects: set<string>

    ghost predicate Valid()
      reads this
    {
      forall i :: 0 <= i < |videos| ==>
        (videos[i].id < nextId && forall j :: 0 <= j < |videos| && i != j ==> videos[i].id != videos[j].id)
    }

    constructor (users0: map<string, Option<string>>)
      ensures Valid() && users == users0 && videos == [] && nextId == 0 && objects == {}
    {
      users := users0;
      videos := [];
      nextId := 0;
      objects := {};
    }

    /** deleteFromStorage: removes the object its address leads to, unless storage is unconfigured, the address is unrecognised or the removal fails (only warned). */
    method DeleteFromStorage(env: ScanEnv, url: string, removeFails: bool)
      modifies this`objects
      ensures objects == AfterRemoval(env, old(objects), url, removeFails)
    {
      var t := DeletionTarget(env, url);
      if t.Some? && !removeFails {
        objects := objects - {t.value};
      }
    }

    /** create: the user must exist; the stored row is exactly the user and the final address. */
    method Create(env: ScanEnv, userId: string, givenUrl: string, file: Option<string>, day: string, outcome: Outcome)
      returns (r: Result<Video>)
      requires Valid()
      modifies this
      ensures Valid() && users == old(users)
      ensures r.Ok? <==> CreateUrl(env, old(users), userId, givenUrl, file, day, outcome).Ok?
      ensures r.Err? ==> r.message == CreateUrl(env, old(users), userId, givenUrl, file, day, outcome).message
                         && videos == old(videos) && nextId == old(nextId)
      ensures r.Ok? ==> r.value == Video(old(nextId), userId, CreateUrl(env, old(users), userId, givenUrl, file, day, outcome).value)
                        && videos == old(videos) + [r.value] && nextId == old(nextId) + 1
      ensures objects == if userId in old(users) && file.Some? && Configured(env) && outcome.Stored?
                         then old(objects) + {StoragePath(day, DisplayName(UserLookup(old(users), userId)), file.value)}
                         else old(objects)
    {
      if userId !in users {
        return Err(UserNotFound);
      }
      var videoUrl := givenUrl;
      if file.Some? {
        var uploaded := UploadVideo(env, file.value, day, UserLookup(users, userId), outcome);
        if uploaded.Err? {
          return Err(uploaded.message);
        }
        objects := objects + {StoragePath(day, DisplayName(UserLookup(users, userId)), file.value)};
        videoUrl := uploaded.value;
      }
      if videoUrl == "" {
        return Err(UrlRequired);
      }
      var v := Video(nextId, userId, videoUrl);
      videos := videos + [v];
      nextId := nextId + 1;
      return Ok(v);
    }

    /**
     * update: with a new file, the old video is removed from storage before the upload; the
     * stored address is the new one, or the existing one when no new one is given.
     */
    method Update(env: ScanEnv, id: nat, newUserId: Option<string>, newUrl: string, file: Option<string>,
                  day: string, outcome: Outcome, removeFails: bool)
      returns (r: Result<Video>)
      requires Valid()
      modifies this
      ensures Valid() && users == old(users) && nextId == old(nextId)
      ensures IndexOfVideo(old(videos), id) == -1 ==> r == Err(VideoNotFound) && videos == old(videos) && objects == old(objects)
      ensures IndexOfVideo(old(videos), id) >= 0 && file.None? ==>
                var i := IndexOfVideo(old(videos), id);
                var existing := old(videos)[i];
                var row := Video(id, newUserId.GetOr(existing.userId), if newUrl != "" then newUrl else existing.videoUrl);
                r == Ok(row) && videos == old(videos)[i := row] && objects == old(objects)
      ensures IndexOfVideo(old(videos), id) >= 0 && file.Some? ==>
                var existing := old(videos)[IndexOfVideo(old(videos), id)];
                var cleared := if existing.videoUrl != "" then AfterRemoval(env, old(objects), existing.videoUrl, removeFails)
                               else old(objects);
                var name := DisplayName(UserLookup(old(users), existing.userId));
                var up := UploadVideo(env, file.value, day, UserLookup(old(users), existing.userId), outcome);
                if up.Err? then r == Err(up.message) && videos == old(videos) && objects == cleared
                else
                  var row := Video(id, newUserId.GetOr(existing.userId), up.value);
                  && r == Ok(row)
                  && videos == old(videos)[IndexOfVideo(old(videos), id) := row]
                  && objects == cleared + {StoragePath(day, name, file.value)}
    {
      var i := IndexOfVideo(videos, id);
      if i < 0 {
        return Err(VideoNotFound);
      }
      var existing := videos[i];
      var videoUrl := newUrl;
      if file.Some? {
        if existing.videoUrl != "" {
          DeleteFromStorage(env, existing.videoUrl, removeFails);
        }
        var uploaded := UploadVideo(env, file.value, day, UserLookup(users, existing.userId), outcome);
        if uploaded.Err? {
          return Err(uploaded.message);
        }
        objects := objects + {StoragePath(day, DisplayName(UserLookup(users, existing.userId)), file.value)};
        videoUrl := uploaded.value;
      }
      var row := Video(id, newUserId.GetOr(existing.userId), if videoUrl != "" then videoUrl else existing.videoUrl);
      videos := videos[i := row];
      return Ok(row);
    }

    /** delete: a missing video is an error; otherwise its object is removed from storage (when it has an address) and only its row is deleted. */
    method Delete(env: ScanEnv, id: nat, removeFails: bool) returns (r: Result<bool>)
      requires Valid()
      modifies this
      ensures Valid() && users == old(users) && nextId == old(nextId)
      ensures IndexOfVideo(old(videos), id) == -1 ==> r == Err(VideoNotFound) && videos == old(videos) && objects == old(objects)
      ensures IndexOfVideo(old(videos), id) >= 0 ==>
                var i := IndexOfVideo(old(videos), id);
                var url := old(videos)[i].videoUrl;
                && r == Ok(true)
                && videos == old(videos)[..i] + old(videos)[i + 1..]
                && objects == (if url != "" then AfterRemoval(env, old(objects), url, removeFails) else old(objects))
    {
      var i := IndexOfVideo(videos, id);
      if i < 0 {
        return Err(VideoNotFound);
      }
      if videos[i].videoUrl != "" {
        DeleteFromStorage(env, videos[i].videoUrl, removeFails);
      }
      videos := videos[..i] + videos[i + 1..];
      return Ok(true);
    }
  }
}
