/** Hosting mode maps a request on a custom domain to an object: the
    domain's root `bucket[/prefix]` gives the bucket and a key prefix, and
    the request path is appended (`handleHostingService`, lines 433-443). */
module Hosting {
  import opened Strings

  /** The object served for an empty key. */
  const IndexPage := "index.html"

  /** The object a hosting request asks for. */
  datatype Target = Target(bucket: string, key: string)

  /** `SplitN(root, "/", 2)`: the part before the first slash and, when
      there is a slash, everything after it. */
  lemma SplitRoot(root: string)
    ensures '/' !in root ==> SplitN(root, '/', 2) == [root]
    ensures '/' in root ==>
      SplitN(root, '/', 2) == [root[..IndexOf(root, '/')], root[IndexOf(root, '/') + 1..]]
  {
    var i := IndexOf(root, '/');
    SplitNSingle(root, '/', 2);
    if i < |root| {
      var head, rest := root[..i], root[i + 1..];
      Reassemble(root, i);
      assert SplitN(rest, '/', 1) == [rest];
      SplitNCons(head, rest, '/', 2, [rest]);
    }
  }

  /** Lines 433-443. The bucket is the root up to its first slash. With a
      sub-prefix the key is that prefix, a slash and the path less one
      leading slash; otherwise it is the path alone, and `index.html` when
      that is empty. */
  function HostingTarget(root: string, path: string): (t: Target)
    ensures var i := IndexOf(root, '/');
      && t.bucket == root[..i]
      && (i < |root| ==> t.key == root[i + 1..] + "/" + TrimPrefix(path, '/'))
    ensures '/' !in t.bucket
    ensures '/' !in root ==>
      t.key == if TrimPrefix(path, '/') == "" then IndexPage else TrimPrefix(path, '/')
    ensures t.key != ""
  {
    SplitRoot(root);
    var rootPath := SplitN(root, '/', 2);
    var bucket := rootPath[0];
    var pt := TrimPrefix(path, '/');
    var pt := if |rootPath| == 2 then rootPath[1] + "/" + pt else pt;
    Target(bucket, if pt == "" then IndexPage else pt)
  }

  /** Building a root from a bucket and a sub-prefix and resolving a path
      against it gives back the bucket, and the key is the sub-prefix and
      the path joined by one slash; a bare bucket root keeps the path. */
  lemma HostingTargetOfRoot(bucket: string, sub: string, path: string)
    requires '/' !in bucket
    ensures HostingTarget(bucket + "/" + sub, path) == Target(bucket, sub + "/" + TrimPrefix(path, '/'))
    ensures HostingTarget(bucket, path).bucket == bucket
  {
    var root := bucket + "/" + sub;
    assert root == bucket + ['/'] + sub;
    IndexOfAt(bucket, sub, '/');
    assert root[..|bucket|] == bucket;
    assert root[|bucket| + 1..] == sub;
  }

  /** `index.html` is served only for a root without a sub-prefix: with a
      sub-prefix the key always holds a slash. */
  lemma IndexOnlyForBareBucket(root: string, path: string)
    requires HostingTarget(root, path).key == IndexPage
    ensures '/' !in root
    ensures TrimPrefix(path, '/') in {"", IndexPage}
  {
    var i := IndexOf(root, '/');
    if i < |root| {
      SlashBetween(root[i + 1..], TrimPrefix(path, '/'));
      assert false;
    }
  }

  /** Two strings joined by a slash hold a slash. */
  lemma SlashBetween(a: string, b: string)
    ensures '/' in a + "/" + b
    ensures a + "/" + b != IndexPage
  {
    assert (a + "/" + b)[|a|] == '/';
    assert '/' !in IndexPage;
  }

  /** The case of the source's comment: root `bucket1/folder1` and path
      `/folder2/index.html` serve `folder1/folder2/index.html` from
      `bucket1`; the path's one leading slash is dropped. */
  lemma HostingSlashedPath(bucket: string, sub: string, rest: string)
    requires '/' !in bucket
    ensures HostingTarget(bucket + "/" + sub, "/" + rest) == Target(bucket, sub + "/" + rest)
  {
    assert TrimPrefix("/" + rest, '/') == rest by {
      assert ("/" + rest)[1..] == rest;
    }
    HostingTargetOfRoot(bucket, sub, "/" + rest);
  }
}
