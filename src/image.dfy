/**
 * The operator's API types that carry behaviour or are read by the monitor
 * controller (pkg/operator/apis/v1alpha1/types.go): the container image
 * reference, the namespace selector and the scrape endpoint.
 */
module V1alpha1 {
  import opened Wrappers
  import opened Text

  /** A container image; pull secrets and pull policy are not modelled. */
  datatype GenericImage = GenericImage(registry: string, repo: string, image: string, tag: string, sha: string)

  /** Kubernetes' `intstr.IntOrString`. */
  datatype IntOrString = IntVal(intVal: int) | StrVal(strVal: string)

  /** Which namespaces a monitor looks in: all of them, or the listed names. */
  datatype NamespaceSelector = NamespaceSelector(any: bool, matchNames: seq<string>)

  /** How a monitor scrapes a service; `targetPort` is a pointer in Go: `None` is nil. */
  datatype Endpoint = Endpoint(port: string, targetPort: Option<IntOrString>, path: string, scheme: string)

  const DefaultRegistry := "docker.io"
  const DefaultTag := "latest"

  /**
   * The image reference `registry/[repo/]image:tag[@sha]`, with "docker.io"
   * standing in for an empty registry and "latest" for an empty tag; the only
   * error is an empty image name.
   */
  function ImageStr(g: GenericImage): (r: Result<string>)
    ensures r.Err? <==> g.image == ""
  {
    if g.image == "" then Err("image name is empty")
    else
      var parts := [if g.registry != "" then g.registry else DefaultRegistry]
                   + (if g.repo != "" then [g.repo] else [])
                   + [g.image];
      Ok(RefOf(parts, if g.tag != "" then g.tag else DefaultTag, g.sha))
  }

  /** The image after the defaults `ImageStr` applies: the registry and tag it actually writes. */
  function Defaulted(g: GenericImage): (d: GenericImage)
    ensures d.registry != "" && d.tag != ""
    ensures d.repo == g.repo && d.image == g.image && d.sha == g.sha
  {
    g.(registry := if g.registry != "" then g.registry else DefaultRegistry,
       tag := if g.tag != "" then g.tag else DefaultTag)
  }

  /**
   * Reads an image reference back into its parts: an optional `@sha`, then a
   * `:tag`, then two or three '/'-separated segments.
   */
  function ParseImageRef(s: string): (r: Option<GenericImage>)
    ensures r.Some? ==> '/' !in r.value.registry && '/' !in r.value.repo && '/' !in r.value.image
  {
    var at := Split(s, '@');
    if |at| > 2 then None
    else
      var sha := if |at| == 2 then at[1] else "";
      var colon := Split(at[0], ':');
      if |colon| != 2 then None
      else
        var segs := Split(colon[0], '/');
        if |segs| == 2 then Some(GenericImage(segs[0], "", segs[1], colon[1], sha))
        else if |segs| == 3 then Some(GenericImage(segs[0], segs[1], segs[2], colon[1], sha))
        else None
  }

  /** None of the fields contains a character the reference uses as a separator. */
  predicate PlainFields(g: GenericImage)
  {
    && '/' !in g.registry && ':' !in g.registry && '@' !in g.registry
    && '/' !in g.repo && ':' !in g.repo && '@' !in g.repo
    && '/' !in g.image && ':' !in g.image && '@' !in g.image
    && ':' !in g.tag && '@' !in g.tag
    && '@' !in g.sha
  }

  /**
   * `ImageStr` loses nothing but the defaults: parsing its output gives back
   * every field, with the registry and tag `ImageStr` filled in.
   */
  lemma ImageStrRoundTrip(g: GenericImage)
    requires g.image != "" && PlainFields(g)
    ensures ParseImageRef(ImageStr(g).value) == Some(Defaulted(g))
  {
    var d := Defaulted(g);
    assert '/' !in d.registry && ':' !in d.registry && '@' !in d.registry;
    assert ':' !in d.tag && '@' !in d.tag;
    if g.repo != "" {
      var segs := [d.registry, g.repo, g.image];
      assert [d.registry] + [g.repo] + [g.image] == segs;
      ParseRefOf(segs, d.tag, g.sha);
    } else {
      var segs := [d.registry, g.image];
      assert [d.registry] + [] + [g.image] == segs;
      ParseRefOf(segs, d.tag, g.sha);
    }
  }

  /** The text `ImageStr` assembles from its segments, tag and digest. */
  function RefOf(segs: seq<string>, tag: string, sha: string): string
  {
    var ref := Join(segs, "/") + ":" + tag;
    if sha != "" then ref + "@" + sha else ref
  }

  lemma ParseRefOf(segs: seq<string>, tag: string, sha: string)
    requires 2 <= |segs| <= 3
    requires forall i :: 0 <= i < |segs| ==> '/' !in segs[i] && ':' !in segs[i] && '@' !in segs[i]
    requires ':' !in tag && '@' !in tag && '@' !in sha
    ensures ParseImageRef(RefOf(segs, tag, sha))
         == Some(if |segs| == 2 then GenericImage(segs[0], "", segs[1], tag, sha)
                 else GenericImage(segs[0], segs[1], segs[2], tag, sha))
  {
    var name := Join(segs, "/");
    var ref := name + ":" + tag;
    SplitJoin(segs, '/');
    NoCharInJoin(segs, '/', ':');
    NoCharInJoin(segs, '/', '@');
    SplitNoSeparator(name, ':');
    SplitNoSeparator(tag, ':');
    SplitAround(name, tag, ':');
    assert Split(ref, ':') == [name, tag];
    assert '@' !in ref;
    SplitNoSeparator(ref, '@');
    if sha != "" {
      SplitNoSeparator(sha, '@');
      SplitAround(ref, sha, '@');
      assert Split(RefOf(segs, tag, sha), '@') == [ref, sha];
    } else {
      assert Split(RefOf(segs, tag, sha), '@') == [ref];
    }
  }
}
