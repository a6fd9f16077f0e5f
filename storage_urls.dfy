/** Public object addresses of the Supabase storage API, as its client forms them. */
module SupabaseStorage {
  import opened Text

  /** The route between the project address and the bucket. */
  const PublicRoutePath: string := "storage/v1/object/public"

  /** Its '/'-separated segments. */
  const PublicRoute: seq<string> := ["storage", "v1", "object", "public"]

  /** `supabase.storage.from(bucket).getPublicUrl(path).data.publicUrl`. */
  function PublicUrl(projectUrl: string, bucket: string, path: string): string {
    projectUrl + "/" + PublicRoutePath + "/" + bucket + "/" + path
  }

  lemma PublicRouteSegments()
    ensures Split(PublicRoutePath, '/') == PublicRoute
  {
    var w := PublicRoute;
    assert '/' !in w[0] && '/' !in w[1] && '/' !in w[2] && '/' !in w[3];
    assert w[1..][1..][1..] == ["public"];
    assert Join(w[1..][1..], '/') == "object" + "/" + "public";
    assert Join(w[1..], '/') == "v1" + "/" + ("object" + "/" + "public");
    assert Join(w, '/') == "storage" + "/" + ("v1" + "/" + ("object" + "/" + "public"));
    assert Join(w, '/') == PublicRoutePath;
    SplitJoin(w, '/');
  }
}
