/**
 * Storage of a finished recording (uploadToStorage and its three tiers). The tier is chosen
 * from configuration alone; the file system, the Supabase client and the S3 client are
 * oracles that either succeed or fail with a message.
 */
module RecordingStorage {
  import opened Text
  import opened Wrappers
  import opened Naming
  import SupabaseStorage

  /** The environment variables read by the upload path; "" stands for an unset variable. */
  datatype Env = Env(supabaseUrl: string, serviceRoleKey: string, storageBucket: string,
                     awsBucket: string, awsAccessKeyId: string, baseUrl: string)

  datatype Tier = Supabase | S3 | Local

  /** Supabase when its address and key are set, otherwise S3 when its bucket and key id are set, otherwise the local directory. */
  function ChooseTier(env: Env): Tier {
    if env.supabaseUrl != "" && env.serviceRoleKey != "" then Supabase
    else if env.awsBucket != "" && env.awsAccessKeyId != "" then S3
    else Local
  }

  /** What one tier's I/O does: everything succeeds, a file operation throws, or the store reports an error. */
  datatype Outcome = Stored | IoFailed(message: string) | StoreRejected(message: string)

  /** What each tier would do if it were tried. */
  datatype Outcomes = Outcomes(supabase: Outcome, s3: Outcome, local: Outcome)

  function OutcomeOf(o: Outcomes, t: Tier): Outcome {
    match t
    case Supabase => o.supabase
    case S3 => o.s3
    case Local => o.local
  }

  const UploadErrorPrefix: string := "Erro ao fazer upload do arquivo: "
  const SupabaseErrorPrefix: string := "Erro no Supabase: "
  const DefaultBucket: string := "recordings"
  const DefaultBaseUrl: string := "http://localhost:3000"

  /** `camera-<camera>-<timestamp>.mp4` as built in recordFromRTSP. */
  function RecordingFilename(cameraId: string, timestamp: nat): string {
    "camera-" + cameraId + "-" + NatToString(timestamp) + ".mp4"
  }

  function BucketName(env: Env): string {
    if env.storageBucket != "" then env.storageBucket else DefaultBucket
  }

  /** `<date>/<user>/<camera>/<file>` inside the Supabase bucket. */
  function SupabasePath(day: string, userName: string, cameraName: string, filename: string): string {
    day + "/" + userName + "/" + cameraName + "/" + filename
  }

  function S3Url(env: Env, filename: string): string {
    "https://" + env.awsBucket + ".s3.amazonaws.com/recordings/" + filename
  }

  function LocalUrl(env: Env, filename: string): string {
    (if env.baseUrl != "" then env.baseUrl else DefaultBaseUrl) + "/recordings/" + filename
  }

  /** The address each tier returns after a successful upload. */
  function StoredUrl(env: Env, t: Tier, day: string, user: NameLookup, camera: NameLookup, filename: string): string {
    match t
    case Supabase =>
      SupabaseStorage.PublicUrl(env.supabaseUrl, BucketName(env),
                                SupabasePath(day, DisplayName(user), DisplayName(camera), filename))
    case S3 => S3Url(env, filename)
    case Local => LocalUrl(env, filename)
  }

  /** The message a failing tier throws, before uploadToStorage adds its prefix. */
  function TierError(t: Tier, o: Outcome): string
    requires !o.Stored?
  {
    if t == Supabase && o.StoreRejected? then SupabaseErrorPrefix + o.message else o.message
  }

  /**
   * uploadToStorage. `day` is the current UTC date as `YYYY-MM-DD`; `user` and `camera`
   * are the two name lookups made by the Supabase tier. The Supabase client exists exactly
   * when the Supabase tier is chosen, so its "not configured" error cannot occur here.
   */
  function Upload(env: Env, filename: string, day: string, user: NameLookup, camera: NameLookup,
                  outcomes: Outcomes): (r: Result<string>)
    ensures r.Ok? <==> OutcomeOf(outcomes, ChooseTier(env)).Stored?
    ensures r.Err? ==> StartsWith(r.message, UploadErrorPrefix)
  {
    var t := ChooseTier(env);
    var o := OutcomeOf(outcomes, t);
    if o.Stored? then Ok(StoredUrl(env, t, day, user, camera, filename))
    else Err(UploadErrorPrefix + TierError(t, o))
  }

  /** The tier depends on configuration alone, and no other tier is tried after the chosen one fails. */
  lemma NoFallback(env: Env, filename: string, day: string, user: NameLookup, camera: NameLookup,
                   o1: Outcomes, o2: Outcomes)
    requires OutcomeOf(o1, ChooseTier(env)) == OutcomeOf(o2, ChooseTier(env))
    ensures Upload(env, filename, day, user, camera, o1) == Upload(env, filename, day, user, camera, o2)
  {
  }

  /** A failure of the chosen tier is reported even when every other tier would have succeeded. */
  lemma FailureIsFinal(env: Env, filename: string, day: string, user: NameLookup, camera: NameLookup, failure: Outcome)
    requires !failure.Stored?
    ensures Upload(env, filename, day, user, camera, Outcomes(failure, failure, failure))
         == Upload(env, filename, day, user, camera,
                   match ChooseTier(env)
                   case Supabase => Outcomes(failure, Stored, Stored)
                   case S3 => Outcomes(Stored, failure, Stored)
                   case Local => Outcomes(Stored, Stored, failure))
    ensures Upload(env, filename, day, user, camera, Outcomes(failure, failure, failure)).Err?
  {
  }

  /** Which tier is chosen, stated on the configuration. */
  lemma TierPriority(env: Env)
    ensures ChooseTier(env) == Supabase <==> env.supabaseUrl != "" && env.serviceRoleKey != ""
    ensures ChooseTier(env) == S3 <==>
              !(env.supabaseUrl != "" && env.serviceRoleKey != "") && env.awsBucket != "" && env.awsAccessKeyId != ""
    ensures ChooseTier(env) == Local <==>
              (env.supabaseUrl == "" || env.serviceRoleKey == "") && (env.awsBucket == "" || env.awsAccessKeyId == "")
  {
  }

  lemma SlugHasNoSlash(s: string)
    requires Slug(s)
    ensures '/' !in s
  {
  }

  /** The Supabase path has exactly four segments: the date, the normalised user and camera names, and the file name. */
  lemma SupabasePathSegments(day: string, user: NameLookup, camera: NameLookup, filename: string)
    requires '/' !in day && '/' !in filename
    ensures Split(SupabasePath(day, DisplayName(user), DisplayName(camera), filename), '/')
         == [day, DisplayName(user), DisplayName(camera), filename]
  {
    var u, c := DisplayName(user), DisplayName(camera);
    SlugHasNoSlash(u);
    SlugHasNoSlash(c);
    var parts := [day, u, c, filename];
    assert parts[1..][1..][1..] == [filename];
    assert Join(parts[1..][1..], '/') == c + "/" + filename;
    assert Join(parts[1..], '/') == u + "/" + (c + "/" + filename);
    assert Join(parts, '/') == day + "/" + (u + "/" + (c + "/" + filename));
    assert Join(parts, '/') == SupabasePath(day, u, c, filename);
    SplitJoin(parts, '/');
  }

  /** The S3 and local addresses end in the file name under `recordings/`. */
  lemma UrlsEndInFilename(env: Env, filename: string)
    ensures S3Url(env, filename)[|S3Url(env, filename)| - |filename|..] == filename
    ensures LocalUrl(env, filename)[|LocalUrl(env, filename)| - |filename|..] == filename
    ensures StartsWith(S3Url(env, filename), "https://" + env.awsBucket)
    ensures env.baseUrl == "" ==> StartsWith(LocalUrl(env, filename), DefaultBaseUrl + "/recordings/")
  {
  }
}
