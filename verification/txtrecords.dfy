/** Hosting-mode credentials published as DNS TXT records: `parseRecords`
    and `getRemoteRecord` of the handler. A hostname carries records
    `storj_grant-<N>:<fragment>` that together spell one serialized access
    grant, and a record `storj_root:<bucket>[/<prefix>]`.

    The loop of `parseRecords` is modelled in two layers: `Classify` reads
    one record the way the loop body does, and `Scan` runs the loop over
    the classified records. */
module TxtRecords {
  import opened Wrappers
  import opened Strings
  import opened Strconv
  import opened Uplink

  const GrantPrefix := "storj_grant"
  const RootKey := "storj_root"
  const MissingRoot := "missing root path in txt record"
  const MissingGrants := "missing grants"

  /** What one record contributes. `Panic` is an index out of range in the
      source: a `storj_grant` key without `-`, or a grant or root record
      without `:`. */
  datatype RecordKind =
    | Grant(index: int, fragment: string)
    | BadIndex(error: string)
    | Root(path: string)
    | Ignored
    | Panic

  /** One iteration of the loop in `parseRecords` (lines 503-513): split on
      the first `:`, then dispatch on the key. A key that merely starts
      with `storj_grant` counts as a grant key, and its index is the text
      between its first and second `-`. */
  function Classify(record: string): RecordKind
  {
    var r := SplitN(record, ':', 2);
    if GrantPrefix <= r[0] then
      var section := Split(r[0], '-');
      if |section| < 2 then Panic
      else
        match Atoi(section[1])
        case Failure(e) => BadIndex(e)
        case Success(i) => if |r| < 2 then Panic else Grant(i, r[1])
    else if r[0] == RootKey then
      if |r| < 2 then Panic else Root(r[1])
    else
      Ignored
  }

  /** How a record's kind relates to its text: the key is everything before
      the first `:`; a grant or root record is its key, a `:` and its
      value; a record is ignored exactly when its key is neither grant-like
      nor the root key; and a panic needs either a record without `:` or a
      grant-like key without `-`. */
  lemma ClassifyReadsRecord(record: string)
    ensures var key := SplitN(record, ':', 2)[0];
      var kind := Classify(record);
      && (kind.Ignored? <==> !(GrantPrefix <= key) && key != RootKey)
      && (kind.Root? ==> key == RootKey && record == key + [':'] + kind.path)
      && (kind.Grant? ==> GrantPrefix <= key && record == key + [':'] + kind.fragment)
      && (kind.BadIndex? ==> GrantPrefix <= key)
      && (kind.Panic? ==> ':' !in record || (GrantPrefix <= key && '-' !in key))
  {
    ClassifyKey(record);
    ClassifyRootValue(record);
    ClassifyGrantValue(record);
  }

  /** Which key a record's kind stands for. */
  lemma ClassifyKey(record: string)
    ensures var key := SplitN(record, ':', 2)[0];
      var kind := Classify(record);
      && (kind.Ignored? <==> !(GrantPrefix <= key) && key != RootKey)
      && (kind.BadIndex? ==> GrantPrefix <= key)
      && (kind.Panic? ==> ':' !in record || (GrantPrefix <= key && '-' !in key))
  {
    var r := SplitN(record, ':', 2);
    KeyValueCut(record);
    SplitSingle(r[0], '-');
  }

  /** A root record is the root key, a `:` and its value. */
  lemma ClassifyRootValue(record: string)
    ensures var key := SplitN(record, ':', 2)[0];
      var kind := Classify(record);
      kind.Root? ==> key == RootKey && record == key + [':'] + kind.path
  {
    KeyValueCut(record);
  }

  /** A grant record is its key, a `:` and its fragment. */
  lemma ClassifyGrantValue(record: string)
    ensures var key := SplitN(record, ':', 2)[0];
      var kind := Classify(record);
      kind.Grant? ==> GrantPrefix <= key && record == key + [':'] + kind.fragment
  {
    var r := SplitN(record, ':', 2);
    var kind := Classify(record);
    if kind.Grant? {
      assert |r| == 2 && kind.fragment == r[1];
      KeyValueCut(record);
    }
  }

  /** A record cut at its first `:` is its key, the `:` and its value; a
      record that does not cut holds no `:`. */
  lemma KeyValueCut(record: string)
    ensures var r := SplitN(record, ':', 2);
      && (|r| == 2 ==> record == r[0] + [':'] + r[1])
      && (|r| == 1 ==> ':' !in record)
  {
    var r := SplitN(record, ':', 2);
    JoinSplitN(record, ':', 2);
    SplitNSingle(record, ':', 2);
    if |r| == 2 {
      assert [r[0]] + r[1..] == r;
      JoinCons(r[0], r[1..], ':');
    }
  }

  /** Every record, classified. */
  function Kinds(records: seq<string>): (kinds: seq<RecordKind>)
  {
    MapSeq(Classify, records)
  }

  /** `f` applied to each element, in order. */
  function MapSeq<A, B>(f: A -> B, s: seq<A>): (r: seq<B>)
    ensures |r| == |s|
    ensures forall k :: 0 <= k < |s| ==> r[k] == f(s[k])
  {
    seq(|s|, k requires 0 <= k < |s| => f(s[k]))
  }

  /** Mapping distributes over concatenation. */
  lemma MapSeqAppend<A, B>(f: A -> B, a: seq<A>, m: seq<A>, b: seq<A>)
    ensures MapSeq(f, a + m + b) == MapSeq(f, a) + MapSeq(f, m) + MapSeq(f, b)
    ensures |m| == 2 ==> MapSeq(f, m) == [f(m[0]), f(m[1])]
  {
  }

  /** Processing stops before any panic: every record up to the first one
      whose grant index does not parse is a grant, a root or ignored. */
  predicate Safe(kinds: seq<RecordKind>)
  {
    |kinds| == 0 ||
    match kinds[0]
    case Panic => false
    case BadIndex(_) => true
    case _ => Safe(kinds[1..])
  }

  /** The records are processed without a panic. */
  predicate RecordsSafe(records: seq<string>)
  {
    Safe(Kinds(records))
  }

  /** Some record has a grant index that does not parse. */
  predicate Halts(kinds: seq<RecordKind>)
  {
    |kinds| > 0 && (kinds[0].BadIndex? || Halts(kinds[1..]))
  }

  /** The error of the first record whose grant index does not parse. */
  function FirstError(kinds: seq<RecordKind>): string
    requires Halts(kinds)
  {
    if kinds[0].BadIndex? then kinds[0].error else FirstError(kinds[1..])
  }

  /** The indices named by grant records. */
  function GrantIndices(kinds: seq<RecordKind>): set<int>
  {
    if |kinds| == 0 then {}
    else if kinds[0].Grant? then {kinds[0].index} + GrantIndices(kinds[1..])
    else GrantIndices(kinds[1..])
  }

  /** The fragment of the LAST grant record with index `i`, if any. */
  function LastGrant(kinds: seq<RecordKind>, i: int): (r: Option<string>)
    ensures r.Some? <==> i in GrantIndices(kinds)
  {
    if |kinds| == 0 then None
    else
      var later := LastGrant(kinds[1..], i);
      if later.Some? then later
      else if kinds[0].Grant? && kinds[0].index == i then Some(kinds[0].fragment)
      else None
  }

  /** The path of the LAST root record, if any. */
  function LastRoot(kinds: seq<RecordKind>): Option<string>
  {
    if |kinds| == 0 then None
    else
      var later := LastRoot(kinds[1..]);
      if later.Some? then later
      else if kinds[0].Root? then Some(kinds[0].path)
      else None
  }

  /** What the loop of `parseRecords` has gathered: the grant map and the
      root seen so far. */
  datatype Scanned = Scanned(grants: map<int, string>, root: string)

  /** The loop of `parseRecords` (lines 502-514), from a state `grants`,
      `root`: a grant record sets its index, a root record replaces the
      root, and the first unparsable index ends the loop with its error. */
  function Scan(kinds: seq<RecordKind>, grants: map<int, string>, root: string): (r: Result<Scanned, string>)
    requires Safe(kinds)
    ensures r.Failure? <==> Halts(kinds)
    ensures r.Success? ==> grants.Keys <= r.value.grants.Keys
  {
    if |kinds| == 0 then Success(Scanned(grants, root))
    else
      match kinds[0]
      case BadIndex(e) => Failure(e)
      case Grant(i, fragment) => Scan(kinds[1..], grants[i := fragment], root)
      case Root(path) => Scan(kinds[1..], grants, path)
      case Ignored => Scan(kinds[1..], grants, root)
  }

  /** What the loop gathers, against the reference definitions: it fails
      exactly when some grant index does not parse, with the first such
      error; otherwise each index holds the fragment of the last record
      naming it, untouched indices keep their value, and the last root
      record wins. */
  lemma {:induction false} ScanGathers(kinds: seq<RecordKind>, grants: map<int, string>, root: string)
    requires Safe(kinds)
    ensures var r := Scan(kinds, grants, root);
      && (r.Failure? <==> Halts(kinds))
      && (r.Failure? ==> r.error == FirstError(kinds))
      && (r.Success? ==> r.value.grants.Keys == grants.Keys + GrantIndices(kinds))
      && (r.Success? ==> forall i :: i in GrantIndices(kinds) ==> r.value.grants[i] == LastGrant(kinds, i).value)
      && (r.Success? ==> forall i :: i in grants && i !in GrantIndices(kinds) ==> r.value.grants[i] == grants[i])
      && (r.Success? ==> r.value.root == LastRoot(kinds).GetOr(root))
    decreases |kinds|
  {
    if |kinds| > 0 {
      match kinds[0]
      case BadIndex(e) =>
      case Grant(i, fragment) => ScanGathers(kinds[1..], grants[i := fragment], root);
      case Root(path) => ScanGathers(kinds[1..], grants, path);
      case Ignored => ScanGathers(kinds[1..], grants, root);
    }
  }

  /** The indices `1..n`. */
  function Range(n: nat): (s: set<int>)
    ensures forall i :: i in s <==> 1 <= i <= n
    ensures |s| == n
  {
    if n == 0 then {} else Range(n - 1) + {n}
  }

  /** `grants[1] + ... + grants[n]`, Go's zero value `""` standing in for
      a missing index. */
  function Fragments(grants: map<int, string>, n: nat): string
  {
    if n == 0 then "" else Fragments(grants, n - 1) + (if n in grants then grants[n] else "")
  }

  /** The loop at lines 521-526 run up to index `n`: every index `1..n` must
      hold a non-empty fragment. */
  function AssembleUpTo(grants: map<int, string>, n: nat): (r: Result<string, string>)
    ensures r.Success? <==> forall i :: 1 <= i <= n ==> i in grants && grants[i] != ""
    ensures r.Success? ==> r.value == Fragments(grants, n)
    ensures r.Failure? ==> r.error == MissingGrants
  {
    if n == 0 then Success("")
    else
      match AssembleUpTo(grants, n - 1)
      case Failure(e) => Failure(e)
      case Success(s) =>
        if n in grants && grants[n] != "" then Success(s + grants[n]) else Failure(MissingGrants)
  }

  /** Lines 520-526: the loop bound is the SIZE of the map, so the grants
      assemble exactly when their indices are `1..n` for `n` fragments,
      all non-empty; an index 0, a negative index or a gap all fail. */
  function AssembleGrants(grants: map<int, string>): (r: Result<string, string>)
    ensures r.Success? <==> grants.Keys == Range(|grants|) && forall i :: i in grants ==> grants[i] != ""
    ensures r.Success? ==> r.value == Fragments(grants, |grants|)
    ensures r.Failure? ==> r.error == MissingGrants
  {
    CompleteIndices(grants);
    AssembleUpTo(grants, |grants|)
  }

  /** Pigeonhole: a map with `n` keys holds every index `1..n` exactly when
      its keys are `1..n`. */
  lemma CompleteIndices(grants: map<int, string>)
    ensures (forall i :: 1 <= i <= |grants| ==> i in grants) <==> grants.Keys == Range(|grants|)
  {
    if forall i :: 1 <= i <= |grants| ==> i in grants {
      SubsetOfSameSize(Range(|grants|), grants.Keys);
    }
  }

  /** A subset as large as its superset is the whole superset. */
  lemma SubsetOfSameSize<T>(a: set<T>, b: set<T>)
    requires a <= b && |a| == |b|
    ensures a == b
  {
    assert a * b == a && a + b == b;
    assert |b - a| == 0;
  }

  /** The fragments of the last grant record for each index `1..n`,
      concatenated in index order. */
  function ConcatGrants(kinds: seq<RecordKind>, n: nat): string
  {
    if n == 0 then "" else ConcatGrants(kinds, n - 1) + LastGrant(kinds, n).GetOr("")
  }

  /** The indices the records name are exactly `1..n`, and the last
      fragment for each is non-empty. */
  predicate GrantsComplete(kinds: seq<RecordKind>)
  {
    var ids := GrantIndices(kinds);
    && ids == Range(|ids|)
    && forall i :: i in ids ==> LastGrant(kinds, i).value != ""
  }

  /** `parseRecords` (lines 500-529). In the order the source checks them:
      a grant index that does not parse; no root record, or an empty last
      root; grant indices other than exactly `1..n` or an empty fragment;
      then `ParseAccess` on the fragments concatenated in index order. On
      success the root is the last root record's path. */
  function ParseRecords(records: seq<string>, parseAccess: string -> Result<Access, string>)
    : (r: Result<(Access, string), string>)
    requires RecordsSafe(records)
    ensures var kinds := Kinds(records);
      && (r.Success? ==> LastRoot(kinds).Some? && r.value.1 == LastRoot(kinds).value != "")
      && (Halts(kinds) ==> r == Failure(FirstError(kinds)))
      && (!Halts(kinds) && LastRoot(kinds).GetOr("") == "" ==> r == Failure(MissingRoot))
      && ((!Halts(kinds) && LastRoot(kinds).GetOr("") != "" && !GrantsComplete(kinds))
            ==> r == Failure(MissingGrants))
      && (!Halts(kinds) && LastRoot(kinds).GetOr("") != "" && GrantsComplete(kinds) ==>
            match parseAccess(ConcatGrants(kinds, |GrantIndices(kinds)|))
            case Success(a) => r == Success((a, LastRoot(kinds).value))
            case Failure(e) => r == Failure(e))
  {
    var kinds := Kinds(records);
    ScanGathers(kinds, map[], "");
    ScannedFragments(kinds);
    ParseKinds(kinds, parseAccess)
  }

  /** After a successful scan, the assembled grant map spells the
      reference concatenation. */
  lemma ScannedFragments(kinds: seq<RecordKind>)
    requires Safe(kinds)
    ensures Scan(kinds, map[], "").Success? ==>
      var g := Scan(kinds, map[], "").value.grants;
      Fragments(g, |g|) == ConcatGrants(kinds, |g|)
  {
    ScanGathers(kinds, map[], "");
    if Scan(kinds, map[], "").Success? {
      var g := Scan(kinds, map[], "").value.grants;
      FragmentsMatch(kinds, g, |g|);
    }
  }

  /** `parseRecords` over classified records. */
  function ParseKinds(kinds: seq<RecordKind>, parseAccess: string -> Result<Access, string>)
    : (r: Result<(Access, string), string>)
    requires Safe(kinds)
    ensures Halts(kinds) ==> r == Failure(FirstError(kinds))
    ensures !Halts(kinds) && LastRoot(kinds).GetOr("") == "" ==> r == Failure(MissingRoot)
    ensures r.Success? ==> LastRoot(kinds).Some? && r.value.1 == LastRoot(kinds).value != ""
  {
    ScanGathers(kinds, map[], "");
    match Scan(kinds, map[], "")
    case Failure(e) => Failure(e)
    case Success(s) =>
      if s.root == "" then Failure(MissingRoot)
      else
        match AssembleGrants(s.grants)
        case Failure(e) => Failure(e)
        case Success(serialized) =>
          match parseAccess(serialized)
          case Failure(e) => Failure(e)
          case Success(a) => Success((a, s.root))
  }

  /** The scanned grant map spells the same fragments as the records. */
  lemma {:induction false} FragmentsMatch(kinds: seq<RecordKind>, grants: map<int, string>, n: nat)
    requires grants.Keys == GrantIndices(kinds)
    requires forall i :: i in grants ==> grants[i] == LastGrant(kinds, i).value
    ensures Fragments(grants, n) == ConcatGrants(kinds, n)
  {
    if n > 0 {
      FragmentsMatch(kinds, grants, n - 1);
    }
  }

  /** `getRemoteRecord` (lines 489-495): a failed TXT lookup is returned
      as is; otherwise the records are parsed. */
  function GetRemoteRecord(
    hostname: string,
    lookupTxt: string -> Result<seq<string>, string>,
    parseAccess: string -> Result<Access, string>)
    : (r: Result<(Access, string), string>)
    requires lookupTxt(hostname).Success? ==> RecordsSafe(lookupTxt(hostname).value)
    ensures lookupTxt(hostname).Failure? ==> r == Failure(lookupTxt(hostname).error)
    ensures lookupTxt(hostname).Success? ==> r == ParseRecords(lookupTxt(hostname).value, parseAccess)
    ensures r.Success? ==>
      && lookupTxt(hostname).Success?
      && LastRoot(Kinds(lookupTxt(hostname).value)).Some?
      && r.value.1 == LastRoot(Kinds(lookupTxt(hostname).value)).value
  {
    match lookupTxt(hostname)
    case Failure(e) => Failure(e)
    case Success(records) => ParseRecords(records, parseAccess)
  }

  /** Swapping two adjacent grants with different indices changes neither
      whether processing panics nor what the loop gathers. */
  lemma {:induction false} ScanSwap(
    a: seq<RecordKind>, x: RecordKind, y: RecordKind, b: seq<RecordKind>, grants: map<int, string>, root: string)
    requires x.Grant? && y.Grant? && x.index != y.index
    requires Safe(a + [x, y] + b)
    ensures Safe(a + [y, x] + b)
    ensures Scan(a + [x, y] + b, grants, root) == Scan(a + [y, x] + b, grants, root)
    decreases |a|
  {
    var s1 := a + [x, y] + b;
    var s2 := a + [y, x] + b;
    if |a| == 0 {
      assert s1[1..] == [y] + b && s1[1..][1..] == b;
      assert s2[1..] == [x] + b && s2[1..][1..] == b;
      assert grants[x.index := x.fragment][y.index := y.fragment]
          == grants[y.index := y.fragment][x.index := x.fragment];
    } else {
      assert s1[1..] == a[1..] + [x, y] + b;
      assert s2[1..] == a[1..] + [y, x] + b;
      match a[0]
      case BadIndex(_) =>
      case Grant(i, fragment) => ScanSwap(a[1..], x, y, b, grants[i := fragment], root);
      case Root(path) => ScanSwap(a[1..], x, y, b, grants, path);
      case Ignored => ScanSwap(a[1..], x, y, b, grants, root);
    }
  }

  /** `parseRecords` is its kind-level counterpart on the classified records. */
  lemma ParseRecordsByKinds(records: seq<string>, parseAccess: string -> Result<Access, string>)
    requires RecordsSafe(records)
    ensures ParseRecords(records, parseAccess) == ParseKinds(Kinds(records), parseAccess)
  {
  }

  /** Swapping adjacent grants with different indices, at the level of kinds. */
  lemma ParseKindsSwap(
    a: seq<RecordKind>, x: RecordKind, y: RecordKind, b: seq<RecordKind>, parseAccess: string -> Result<Access, string>)
    requires x.Grant? && y.Grant? && x.index != y.index
    requires Safe(a + [x, y] + b)
    ensures Safe(a + [y, x] + b)
    ensures ParseKinds(a + [x, y] + b, parseAccess) == ParseKinds(a + [y, x] + b, parseAccess)
  {
    ScanSwap(a, x, y, b, map[], "");
  }

  /** Classifying a sequence with two adjacent records swapped. */
  lemma KindsSwap(a: seq<string>, x: string, y: string, b: seq<string>)
    ensures Kinds(a + [x, y] + b) == Kinds(a) + [Classify(x), Classify(y)] + Kinds(b)
    ensures Kinds(a + [y, x] + b) == Kinds(a) + [Classify(y), Classify(x)] + Kinds(b)
  {
    MapSeqAppend(Classify, a, [x, y], b);
    MapSeqAppend(Classify, a, [y, x], b);
  }

  /** The order of grant records with different indices does not matter:
      swapping two adjacent ones leaves the result of `parseRecords`
      unchanged (and adjacent swaps reach every such reordering). */
  lemma ParseRecordsSwap(
    a: seq<string>, x: string, y: string, b: seq<string>, parseAccess: string -> Result<Access, string>)
    requires Classify(x).Grant? && Classify(y).Grant? && Classify(x).index != Classify(y).index
    requires RecordsSafe(a + [x, y] + b)
    ensures RecordsSafe(a + [y, x] + b)
    ensures ParseRecords(a + [x, y] + b, parseAccess) == ParseRecords(a + [y, x] + b, parseAccess)
  {
    KindsSwap(a, x, y, b);
    ParseKindsSwap(Kinds(a), Classify(x), Classify(y), Kinds(b), parseAccess);
    ParseRecordsByKinds(a + [x, y] + b, parseAccess);
    ParseRecordsByKinds(a + [y, x] + b, parseAccess);
  }

  /** The record `storj_grant-<index>:<fragment>` a publisher writes. */
  function GrantRecord(index: nat, fragment: string): string
  {
    GrantPrefix + "-" + Itoa(index) + ":" + fragment
  }

  /** The record `storj_root:<path>`. */
  function RootRecord(path: string): string
  {
    RootKey + ":" + path
  }

  /** Grant records for `fragments`, numbered from 1. */
  function GrantRecords(fragments: seq<string>): seq<string>
  {
    seq(|fragments|, k requires 0 <= k < |fragments| => GrantRecord(k + 1, fragments[k]))
  }

  /** The records a publisher writes: the grants, then the root. */
  function EncodeRecords(fragments: seq<string>, root: string): seq<string>
  {
    GrantRecords(fragments) + [RootRecord(root)]
  }

  /** A written grant record reads back as that grant. */
  lemma ClassifyGrantRecord(index: nat, fragment: string)
    requires index <= MaxInt64
    ensures Classify(GrantRecord(index, fragment)) == Grant(index, fragment)
  {
    var digits := Itoa(index);
    var key := GrantPrefix + "-" + digits;
    GrantRecordCut(index, fragment);
    GrantKeySections(digits);
    assert GrantPrefix <= key;
    AtoiItoa(index);
  }

  /** The first `:` of a written grant record ends its key. */
  lemma GrantRecordCut(index: nat, fragment: string)
    ensures SplitN(GrantRecord(index, fragment), ':', 2) == [GrantPrefix + "-" + Itoa(index), fragment]
  {
    var digits := Itoa(index);
    assert ':' !in digits by {
      assert forall k :: 0 <= k < |digits| ==> IsDigit(digits[k]);
    }
    var key := GrantPrefix + "-" + digits;
    assert ':' !in GrantPrefix;
    assert ':' !in key;
    assert SplitN(fragment, ':', 1) == [fragment];
    SplitNCons(key, fragment, ':', 2, [fragment]);
  }

  /** A grant key with a decimal index splits at its one `-`. */
  lemma GrantKeySections(digits: string)
    requires AllDigits(digits)
    ensures Split(GrantPrefix + "-" + digits, '-') == [GrantPrefix, digits]
  {
    assert '-' !in digits by {
      assert forall k :: 0 <= k < |digits| ==> IsDigit(digits[k]);
    }
    assert '-' !in GrantPrefix;
    SplitAt(GrantPrefix, digits, '-');
    SplitSingle(digits, '-');
  }

  /** A written root record reads back as that root. */
  lemma ClassifyRootRecord(path: string)
    ensures Classify(RootRecord(path)) == Root(path)
  {
    assert ':' !in RootKey;
    SplitNAt(RootKey, path, ':', 2);
    assert SplitN(path, ':', 1) == [path];
    assert RootKey[6] != GrantPrefix[6];
  }

  /** `grants` with `first + k` mapped to `fragments[k]`. */
  function Overlay(grants: map<int, string>, fragments: seq<string>, first: nat): (g: map<int, string>)
    ensures forall i :: i in g <==> i in grants || first <= i < first + |fragments|
    ensures forall i :: first <= i < first + |fragments| ==> g[i] == fragments[i - first]
    ensures forall i :: i in grants && !(first <= i < first + |fragments|) ==> g[i] == grants[i]
    decreases |fragments|
  {
    if |fragments| == 0 then grants else Overlay(grants[first := fragments[0]], fragments[1..], first + 1)
  }

  /** Scanning grants numbered from `first` amounts to overlaying their
      fragments. */
  lemma {:induction false} ScanNumberedGrants(
    fragments: seq<string>, first: nat, tail: seq<RecordKind>, grants: map<int, string>, root: string)
    requires Safe(tail)
    ensures var kinds := seq(|fragments|, k requires 0 <= k < |fragments| => Grant(first + k, fragments[k])) + tail;
      && Safe(kinds)
      && Scan(kinds, grants, root) == Scan(tail, Overlay(grants, fragments, first), root)
    decreases |fragments|
  {
    var kinds := seq(|fragments|, k requires 0 <= k < |fragments| => Grant(first + k, fragments[k])) + tail;
    if |fragments| > 0 {
      var rest := fragments[1..];
      ScanNumberedGrants(rest, first + 1, tail, grants[first := fragments[0]], root);
      assert kinds[1..] == seq(|rest|, k requires 0 <= k < |rest| => Grant(first + 1 + k, rest[k])) + tail;
    } else {
      assert kinds == tail;
    }
  }

  /** The fragments of a complete overlay concatenate in order. */
  lemma {:induction false} FragmentsOfOverlay(fragments: seq<string>, n: nat)
    requires n <= |fragments|
    ensures Fragments(Overlay(map[], fragments, 1), n) == Concat(fragments[..n])
  {
    if n > 0 {
      FragmentsOfOverlay(fragments, n - 1);
      assert fragments[..n][..n - 1] == fragments[..n - 1];
    }
  }

  /** The kinds of grants numbered from `first`. */
  function Numbered(fragments: seq<string>, first: nat): (kinds: seq<RecordKind>)
    ensures |kinds| == |fragments|
    ensures forall k :: 0 <= k < |fragments| ==> kinds[k] == Grant(first + k, fragments[k])
  {
    seq(|fragments|, k requires 0 <= k < |fragments| => Grant(first + k, fragments[k]))
  }

  /** Written grant records classify as their numbered grants. */
  lemma GrantRecordKinds(fragments: seq<string>)
    requires |fragments| < MaxInt64
    ensures Kinds(GrantRecords(fragments)) == Numbered(fragments, 1)
  {
    var kinds, numbered := Kinds(GrantRecords(fragments)), Numbered(fragments, 1);
    forall k | 0 <= k < |fragments|
      ensures kinds[k] == numbered[k]
    {
      GrantRecordKind(fragments, k);
    }
  }

  /** The `k`-th written grant record classifies as grant `k + 1`. */
  lemma GrantRecordKind(fragments: seq<string>, k: nat)
    requires k < |fragments| < MaxInt64
    ensures Kinds(GrantRecords(fragments))[k] == Grant(k + 1, fragments[k])
  {
    var records := GrantRecords(fragments);
    assert records[k] == GrantRecord(k + 1, fragments[k]);
    ClassifyGrantRecord(k + 1, fragments[k]);
  }

  /** Written records classify as their numbered grants and the root. */
  lemma EncodedKinds(fragments: seq<string>, root: string)
    requires |fragments| < MaxInt64
    ensures Kinds(EncodeRecords(fragments, root)) == Numbered(fragments, 1) + [Root(root)]
  {
    MapSeqAppend(Classify, GrantRecords(fragments), [RootRecord(root)], []);
    GrantRecordKinds(fragments);
    ClassifyRootRecord(root);
  }

  /** Scanning numbered grants and a root gathers the overlay of the
      fragments and that root. */
  lemma ScanNumbered(fragments: seq<string>, root: string)
    ensures Safe(Numbered(fragments, 1) + [Root(root)])
    ensures Scan(Numbered(fragments, 1) + [Root(root)], map[], "")
         == Success(Scanned(Overlay(map[], fragments, 1), root))
  {
    var tail := [Root(root)];
    assert Numbered(fragments, 1) == seq(|fragments|, k requires 0 <= k < |fragments| => Grant(1 + k, fragments[k]));
    assert tail[1..] == [];
    ScanNumberedGrants(fragments, 1, tail, map[], "");
  }

  /** Numbered non-empty grants followed by a non-empty root parse to the
      access of the fragments joined in order. */
  lemma ParseNumbered(fragments: seq<string>, root: string, parseAccess: string -> Result<Access, string>)
    requires forall k :: 0 <= k < |fragments| ==> fragments[k] != ""
    requires root != ""
    ensures Safe(Numbered(fragments, 1) + [Root(root)])
    ensures ParseKinds(Numbered(fragments, 1) + [Root(root)], parseAccess)
         == match parseAccess(Concat(fragments))
            case Success(a) => Success((a, root))
            case Failure(e) => Failure(e)
  {
    ScanNumbered(fragments, root);
    OverlayAssembles(fragments);
  }

  /** The overlay of non-empty fragments numbered from 1 assembles to
      their concatenation. */
  lemma OverlayAssembles(fragments: seq<string>)
    requires forall k :: 0 <= k < |fragments| ==> fragments[k] != ""
    ensures AssembleGrants(Overlay(map[], fragments, 1)) == Success(Concat(fragments))
  {
    var g := Overlay(map[], fragments, 1);
    assert g.Keys == Range(|fragments|);
    FragmentsOfOverlay(fragments, |fragments|);
    assert fragments[..|fragments|] == fragments;
  }

  /** Round trip: records written for non-empty fragments and a non-empty
      root parse back to that root and to the access `ParseAccess` makes of
      the fragments joined in order (or to its error). */
  lemma ParseEncodedRecords(fragments: seq<string>, root: string, parseAccess: string -> Result<Access, string>)
    requires |fragments| < MaxInt64
    requires forall k :: 0 <= k < |fragments| ==> fragments[k] != ""
    requires root != ""
    ensures RecordsSafe(EncodeRecords(fragments, root))
    ensures ParseRecords(EncodeRecords(fragments, root), parseAccess)
         == match parseAccess(Concat(fragments))
            case Success(a) => Success((a, root))
            case Failure(e) => Failure(e)
  {
    EncodedKinds(fragments, root);
    ParseNumbered(fragments, root, parseAccess);
    ParseRecordsByKinds(EncodeRecords(fragments, root), parseAccess);
  }
}
