/** The data behind a prefix listing page (`servePrefix` of the handler):
    the breadcrumb trail and the listed items. Rendering the page and
    formatting sizes are not modelled; an item keeps its byte count. */
module Listing {
  import opened Wrappers
  import opened Strings
  import opened Uplink

  /** One link of the trail: a label and the relative URL it points to. */
  datatype Breadcrumb = Breadcrumb(prefix: string, url: string)

  /** One listed entry: its key relative to the listed prefix. */
  datatype Item = Item(name: string, size: int, isPrefix: bool)

  /** What the listing template receives. */
  datatype Page = Page(bucket: string, breadcrumbs: seq<Breadcrumb>, items: seq<Item>)

  /** The components the trail walks through: those of the prefix with
      ALL its trailing slashes trimmed; none for the empty prefix. */
  function Components(prefix: string): (comps: seq<string>)
    ensures prefix == "" <==> |comps| == 0
    ensures forall k :: 0 <= k < |comps| ==> '/' !in comps[k]
  {
    if prefix == "" then [] else Split(TrimRight(prefix, '/'), '/')
  }

  /** The first breadcrumb: the bucket, linking to `access/bucket/`. */
  function Root(access: string, bucket: string): Breadcrumb
  {
    Breadcrumb(bucket, access + "/" + bucket + "/")
  }

  /** The loop of lines 263-268: one breadcrumb per component, its URL the
      previous URL, a slash, the component and a slash. The previous URL
      already ends in a slash, so consecutive components are joined by two. */
  function Extend(crumbs: seq<Breadcrumb>, comps: seq<string>): (r: seq<Breadcrumb>)
    requires |crumbs| >= 1
    ensures |r| == |crumbs| + |comps|
    ensures r[..|crumbs|] == crumbs
    ensures forall i :: 0 <= i < |comps| ==>
      r[|crumbs| + i] == Breadcrumb(comps[i], r[|crumbs| + i - 1].url + "/" + comps[i] + "/")
    decreases |comps|
  {
    if |comps| == 0 then crumbs
    else
      var next := Breadcrumb(comps[0], crumbs[|crumbs| - 1].url + "/" + comps[0] + "/");
      var r := Extend(crumbs + [next], comps[1..]);
      assert r[..|crumbs| + 1][..|crumbs|] == r[..|crumbs|];
      r
  }

  /** The trail of lines 256-269: the bucket first, then one breadcrumb
      per component of the prefix. */
  function Breadcrumbs(access: string, bucket: string, prefix: string): (crumbs: seq<Breadcrumb>)
    ensures |crumbs| == 1 + |Components(prefix)|
    ensures crumbs[0] == Root(access, bucket)
    ensures forall i :: 0 <= i < |Components(prefix)| ==>
      crumbs[i + 1] == Breadcrumb(Components(prefix)[i], crumbs[i].url + "/" + Components(prefix)[i] + "/")
  {
    Extend([Root(access, bucket)], Components(prefix))
  }

  /** The labels after the bucket. */
  function Labels(crumbs: seq<Breadcrumb>): (labels: seq<string>)
    ensures |labels| == |crumbs|
    ensures forall k :: 0 <= k < |crumbs| ==> labels[k] == crumbs[k].prefix
  {
    seq(|crumbs|, k requires 0 <= k < |crumbs| => crumbs[k].prefix)
  }

  /** Each breadcrumb URL is a strict prefix of every later one, so the
      trail only ever descends. */
  lemma {:induction false} BreadcrumbUrlsDescend(access: string, bucket: string, prefix: string, i: nat, j: nat)
    requires i < j < |Breadcrumbs(access, bucket, prefix)|
    ensures var crumbs := Breadcrumbs(access, bucket, prefix);
      crumbs[i].url < crumbs[j].url
    decreases j
  {
    var crumbs := Breadcrumbs(access, bucket, prefix);
    var comp := Components(prefix)[j - 1];
    assert crumbs[j].url == crumbs[j - 1].url + ("/" + comp + "/");
    if i < j - 1 {
      BreadcrumbUrlsDescend(access, bucket, prefix, i, j - 1);
    }
  }

  /** The labels after the bucket spell the prefix back, less its trailing
      slashes: nothing is lost and nothing is added. */
  lemma BreadcrumbLabels(access: string, bucket: string, prefix: string)
    requires prefix != ""
    ensures Join(Labels(Breadcrumbs(access, bucket, prefix))[1..], '/') == TrimRight(prefix, '/')
  {
    var crumbs := Breadcrumbs(access, bucket, prefix);
    assert Labels(crumbs)[1..] == Components(prefix);
    JoinSplit(TrimRight(prefix, '/'), '/');
  }

  /** The trail for a two-level prefix `a/b/`: the bucket, then `a` and
      `b`, with a doubled slash before each component's URL part. For
      `cred`, `bucket` and `a/b/` the URLs are `cred/bucket/`,
      `cred/bucket//a/` and `cred/bucket//a//b/`. */
  lemma TwoLevelTrail(access: string, bucket: string, a: string, b: string)
    requires '/' !in a && '/' !in b && b != ""
    ensures var base := access + "/" + bucket + "/";
      Breadcrumbs(access, bucket, a + "/" + b + "/") == [
        Breadcrumb(bucket, base),
        Breadcrumb(a, base + "/" + a + "/"),
        Breadcrumb(b, base + "/" + a + "/" + "/" + b + "/")]
  {
    var ab := a + "/" + b;
    assert !HasSuffix(ab, '/') by {
      assert ab[|ab| - 1] == b[|b| - 1];
    }
    assert (ab + "/")[..|ab|] == ab;
    assert a + "/" + b + "/" == ab + "/";
    assert TrimRight(ab + "/", '/') == ab;
    SplitAt(a, b, '/');
    SplitSingle(b, '/');
    assert Components(ab + "/") == [a, b];
  }

  /** Every listed key is at least as long as the prefix, so the slicing
      at line 281 stays in bounds; a shorter key makes the source panic. */
  predicate KeysCoverPrefix(prefix: string, objects: seq<ObjectInfo>)
  {
    forall k :: 0 <= k < |objects| ==> |prefix| <= |objects[k].key|
  }

  /** The loop of lines 279-287: each listed object becomes an item named
      by its key less the first `|prefix|` characters. */
  function Items(prefix: string, objects: seq<ObjectInfo>): (items: seq<Item>)
    requires KeysCoverPrefix(prefix, objects)
    ensures |items| == |objects|
    ensures forall k :: 0 <= k < |objects| ==>
      && objects[k].key == objects[k].key[..|prefix|] + items[k].name
      && items[k].size == objects[k].contentLength
      && items[k].isPrefix == objects[k].isPrefix
  {
    seq(|objects|, k requires 0 <= k < |objects| =>
      Item(objects[k].key[|prefix|..], objects[k].contentLength, objects[k].isPrefix))
  }

  /** When the listed keys start with the prefix, as a listing by prefix
      returns them, prefix and name give back each key. */
  lemma ItemNamesRestoreKeys(prefix: string, objects: seq<ObjectInfo>, k: nat)
    requires forall j :: 0 <= j < |objects| ==> prefix <= objects[j].key
    requires k < |objects|
    ensures prefix + Items(prefix, objects)[k].name == objects[k].key
  {
    assert objects[k].key[..|prefix|] == prefix;
  }

  /** `servePrefix` (lines 239-293) up to rendering: a listing error is
      returned as is (the items gathered before it are dropped); otherwise
      the page holds the bucket, the trail and one item per object. */
  function ServePrefix(access: string, bucket: string, prefix: string, listing: Result<seq<ObjectInfo>, UplinkError>)
    : (r: Result<Page, UplinkError>)
    requires listing.Success? ==> KeysCoverPrefix(prefix, listing.value)
    ensures listing.Failure? <==> r.Failure?
    ensures listing.Failure? ==> r.error == listing.error
    ensures r.Success? ==>
      && r.value.bucket == bucket
      && r.value.breadcrumbs == Breadcrumbs(access, bucket, prefix)
      && r.value.items == Items(prefix, listing.value)
  {
    match listing
    case Failure(e) => Failure(e)
    case Success(objects) => Success(Page(bucket, Breadcrumbs(access, bucket, prefix), Items(prefix, objects)))
  }
}
