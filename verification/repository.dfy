/** The address repository (internal/repository/address.go): tag similarity,
    the near-duplicate guard on create, the filtered listing and lookup by
    id. The document store is a parameter: a function from a collection name
    to the documents of that collection in the store's iteration order. */
module AddressRepository {
  import opened Results
  import opened Models
  import Strings
  import Languages

  const AddressTablePrefix := "addresses"
  /** Same-name records the duplicate guard looks at. */
  const GetByNameLimit := 10

  // ------------------------------------------------------------ the store

  /** What decoding a stored document into an `AddressItem` gave. */
  datatype Decoded = Decoded(item: AddressItem) | Undecodable(reason: string)

  /** A stored document: the raw `name` and `tags` fields the store's
      queries filter on, and the outcome of decoding the whole document. */
  datatype Doc = Doc(name: string, tags: seq<string>, data: Decoded)

  /** How iterating a query's results ended: normally, or with an error
      after the first `delivered` results. */
  datatype Stop = Done | BrokenAfter(delivered: nat, err: string)

  type Store = string -> seq<Doc>

  function Take<T>(s: seq<T>, n: nat): (r: seq<T>)
    ensures |r| <= n && r <= s
    ensures |s| <= n ==> r == s
  {
    if |s| <= n then s else s[..n]
  }

  /** The results a loop over the query sees before the iteration ends. */
  function Delivered<T>(results: seq<T>, stop: Stop): (r: seq<T>)
    ensures r <= results
  {
    match stop
    case Done => results
    case BrokenAfter(k, _) => Take(results, k)
  }

  /** Name of the collection holding one language's records; `mode` is the
      value of the MODE environment variable. */
  function CollectionName(mode: string, language: Languages.Language): (r: string)
    ensures |r| > |Languages.Get(language)|
    ensures r[|r| - |Languages.Get(language)|..] == Languages.Get(language)
  {
    mode + "_" + AddressTablePrefix + "_" + Languages.Get(language)
  }

  /** Each supported language has a collection of its own. */
  lemma CollectionsPartitionByLanguage(mode: string, a: Languages.Language, b: Languages.Language)
    requires Languages.Validate(a).Pass? && Languages.Validate(b).Pass?
    requires a != b
    ensures CollectionName(mode, a) != CollectionName(mode, b)
  {
    Languages.GetSeparatesSupported(a, b);
    Languages.GetOfSupported();
    var na, nb := CollectionName(mode, a), CollectionName(mode, b);
    assert na[|na| - 2..] == Languages.Get(a);
    assert nb[|nb| - 2..] == Languages.Get(b);
  }

  // ------------------------------------------------------- tag similarity

  /** A similarity score `same / total`; `total == 0` stands for the NaN
      that float32 division 0/0 gives. */
  datatype Similarity = Similarity(same: nat, total: nat)

  /** How many of the candidate's tags, counted with multiplicity, occur in
      the existing tags; the count after the source's loop has visited
      `candidate`. */
  function SameTagCount(candidate: seq<string>, existing: seq<string>): (n: nat)
    ensures n <= |candidate|
  {
    if |candidate| == 0 then 0
    else
      SameTagCount(candidate[..|candidate| - 1], existing)
      + (if candidate[|candidate| - 1] in existing then 1 else 0)
  }

  /** `compareTags`: matched candidate tags over all candidate tags. */
  function CompareTags(candidate: seq<string>, existing: seq<string>): (s: Similarity)
    ensures s.total == |candidate| && s.same <= s.total
  {
    Similarity(SameTagCount(candidate, existing), |candidate|)
  }

  /** `similarity > 0.6`, in integers. A NaN score is never greater than
      anything. */
  function ExceedsLimit(s: Similarity): (b: bool)
    ensures b <==> s.total > 0 && (s.same as real) / (s.total as real) > 0.6
  {
    if s.total == 0 then false
    else
      RatioAboveLimit(s.same as real, s.total as real);
      5 * s.same > 3 * s.total
  }

  /** For a positive total, `same / total > 0.6` is `5 * same > 3 * total`. */
  lemma RatioAboveLimit(same: real, total: real)
    requires total > 0.0
    ensures same / total > 0.6 <==> 5.0 * same > 3.0 * total
  {
    var q := same / total;
    assert same == q * total;
    if q > 0.6 {
      assert (q - 0.6) * total > 0.0;
    } else {
      assert (0.6 - q) * total >= 0.0;
    }
  }

  /** The positions of candidate tags found in the existing tags. */
  function MatchingPositions(candidate: seq<string>, existing: seq<string>): set<nat>
  {
    set i: nat | i < |candidate| && candidate[i] in existing
  }

  /** The count is the number of matching positions. */
  lemma {:induction false} SameTagCountCountsPositions(candidate: seq<string>, existing: seq<string>)
    ensures SameTagCount(candidate, existing) == |MatchingPositions(candidate, existing)|
    decreases |candidate|
  {
    if |candidate| > 0 {
      var n := |candidate| - 1;
      var init := candidate[..n];
      SameTagCountCountsPositions(init, existing);
      var before := MatchingPositions(init, existing);
      var after := MatchingPositions(candidate, existing);
      if candidate[n] in existing {
        assert after == before + {n};
        assert n !in before;
      } else {
        assert after == before;
      }
    }
  }

  /** Score 1 exactly when every candidate tag occurs in the existing tags. */
  lemma {:induction false} FullScoreIffAllFound(candidate: seq<string>, existing: seq<string>)
    ensures SameTagCount(candidate, existing) == |candidate|
        <==> forall i :: 0 <= i < |candidate| ==> candidate[i] in existing
    decreases |candidate|
  {
    if |candidate| > 0 {
      var n := |candidate| - 1;
      FullScoreIffAllFound(candidate[..n], existing);
      assert forall i :: 0 <= i < n ==> candidate[..n][i] == candidate[i];
    }
  }

  /** Adding tags to the existing record never lowers the score. */
  lemma {:induction false} ScoreMonotoneInExisting(candidate: seq<string>, existing: seq<string>, more: seq<string>)
    requires forall t :: t in existing ==> t in more
    ensures SameTagCount(candidate, existing) <= SameTagCount(candidate, more)
    decreases |candidate|
  {
    if |candidate| > 0 {
      ScoreMonotoneInExisting(candidate[..|candidate| - 1], existing, more);
    }
  }

  /** The score is not symmetric: {a} against {a, b} is 1/1, {a, b}
      against {a} is 1/2. */
  lemma ScoreIsAsymmetric()
    ensures CompareTags(["a"], ["a", "b"]) != CompareTags(["a", "b"], ["a"])
  {
    var one := ["a"];
    var two := ["a", "b"];
    assert one[..0] == [] && two[..1] == one;
    assert CompareTags(one, two) == Similarity(1, 1);
    assert CompareTags(two, one) == Similarity(1, 2);
  }

  /** An empty candidate tag list scores NaN and never exceeds the limit. */
  lemma EmptyCandidateNeverExceeds(existing: seq<string>)
    ensures !ExceedsLimit(CompareTags([], existing))
  {
  }

  /** The limit is strict: 3 of 5 matching tags is allowed, 2 of 3 is not. */
  lemma LimitIsStrict()
    ensures !ExceedsLimit(Similarity(3, 5)) && ExceedsLimit(Similarity(2, 3))
    ensures !ExceedsLimit(Similarity(1, 3))
  {
  }

  /** Candidate tags {a, b, c}: against {a, b} the score is 2/3 and
      rejects, against {a} it is 1/3 and does not. */
  lemma ThreeTagScenario()
    ensures ExceedsLimit(CompareTags(["a", "b", "c"], ["a", "b"]))
    ensures !ExceedsLimit(CompareTags(["a", "b", "c"], ["a"]))
  {
    var c := ["a", "b", "c"];
    assert c[..2][..1] == ["a"] && c[..2] == ["a", "b"];
    assert CompareTags(c, ["a", "b"]) == Similarity(2, 3);
    assert CompareTags(c, ["a"]) == Similarity(1, 3);
  }

  // ------------------------------------------------------ duplicate guard

  /** `p` is a nearest integer to `n / t`, and the even one on a tie. */
  predicate RoundsTo(n: int, t: int, p: int)
  {
    var d := n - p * t;
    && 2 * d <= t && -2 * d <= t
    && (2 * d == t || -2 * d == t ==> p % 2 == 0)
  }

  lemma RoundingStep(n: nat, t: nat, q: int, rem: int)
    requires t > 0 && n == q * t + rem && 0 <= rem < t
    ensures 2 * rem < t ==> RoundsTo(n, t, q)
    ensures 2 * rem > t ==> RoundsTo(n, t, q + 1)
    ensures 2 * rem == t ==> RoundsTo(n, t, if q % 2 == 0 then q else q + 1)
  {
    assert n - q * t == rem;
    assert n - (q + 1) * t == rem - t by {
      assert (q + 1) * t == q * t + t;
    }
  }

  /** `%.0f` of `100 * same / total`: the nearest integer, ties to even. */
  function RoundedPercent(s: Similarity): (p: nat)
    requires s.total > 0
    ensures RoundsTo(100 * s.same, s.total, p)
  {
    var n, t := 100 * s.same, s.total;
    var q, rem := n / t, n % t;
    RoundingStep(n, t, q, rem);
    if 2 * rem > t || (2 * rem == t && q % 2 == 1) then q + 1 else q
  }

  /** 2 of 3 reports 67 percent; 5 of 8 is exactly 62.5 and reports 62. */
  lemma RoundedPercentExamples()
    ensures RoundedPercent(Similarity(2, 3)) == 67
    ensures RoundedPercent(Similarity(5, 8)) == 62
  {
  }

  function DuplicateMessage(name: string, s: Similarity): (m: string)
    requires s.total > 0
    ensures "address with name '" <= m
    ensures Strings.IsInfix(name, m)
    ensures Strings.IsInfix(Strings.NatToString(RoundedPercent(s)), m)
  {
    var head := "address with name '";
    var middle := "' and similar tags (";
    var percent := Strings.NatToString(RoundedPercent(s));
    var tail := "% similarity) already exists";
    var m := head + name + middle + percent + tail;
    assert m == head + name + (middle + percent + tail);
    Strings.InfixOfConcat(head, name, middle + percent + tail);
    Strings.InfixOfConcat(head + name + middle, percent, tail);
    m
  }

  /** A decodable existing record whose tags make the candidate too
      similar. */
  predicate RejectsAgainst(candidate: AddressItem, d: Doc)
  {
    d.data.Decoded? && ExceedsLimit(CompareTags(candidate.tags, d.data.item.tags))
  }

  /** Index of the first record that rejects the candidate, or `|docs|`. */
  function FirstRejecting(candidate: AddressItem, docs: seq<Doc>): (k: nat)
    ensures k <= |docs|
    ensures forall j :: 0 <= j < k ==> !RejectsAgainst(candidate, docs[j])
    ensures k < |docs| ==> RejectsAgainst(candidate, docs[k])
  {
    if |docs| == 0 then 0
    else if RejectsAgainst(candidate, docs[0]) then 0
    else
      var k := FirstRejecting(candidate, docs[1..]);
      assert forall j :: 1 <= j < |docs| ==> docs[j] == docs[1..][j - 1];
      k + 1
  }

  /** The store's answer to `where name == <name>`, in store order. */
  function SameName(docs: seq<Doc>, name: string): (r: seq<Doc>)
    ensures forall i :: 0 <= i < |r| ==> r[i].name == name && r[i] in docs
    ensures forall d :: d in docs && d.name == name ==> d in r
  {
    if |docs| == 0 then []
    else
      var rest := SameName(docs[1..], name);
      assert forall d :: d in docs[1..] ==> d in docs;
      assert forall d :: d in docs ==> d == docs[0] || d in docs[1..];
      if docs[0].name == name then [docs[0]] + rest else rest
  }

  /** The same-name query keeps store order and multiplicity: it is the
      stored sequence with exactly the other-named records left out. */
  lemma {:induction false} SameNameExact(docs: seq<Doc>, name: string)
    ensures IsSubsequence(SameName(docs, name), docs)
    ensures forall d :: multiset(SameName(docs, name))[d] == if d.name == name then multiset(docs)[d] else 0
    decreases |docs|
  {
    if |docs| > 0 {
      SameNameExact(docs[1..], name);
      var rest := SameName(docs[1..], name);
      assert docs == [docs[0]] + docs[1..];
      assert multiset(docs) == multiset{docs[0]} + multiset(docs[1..]);
      if docs[0].name == name {
        var r := SameName(docs, name);
        assert r == [docs[0]] + rest;
        assert r[1..] == rest;
        assert multiset(r) == multiset{docs[0]} + multiset(rest);
      }
    }
  }

  lemma {:induction false} SameNameAppend(a: seq<Doc>, b: seq<Doc>, name: string)
    ensures SameName(a + b, name) == SameName(a, name) + SameName(b, name)
    decreases |a|
  {
    if |a| == 0 {
      assert a + b == b;
    } else {
      assert (a + b)[1..] == a[1..] + b;
      SameNameAppend(a[1..], b, name);
    }
  }

  datatype Verdict = Clear | Duplicate(message: string) | ScanFailed(error: string)

  /** The duplicate scan over the results of the bounded same-name query:
      skip undecodable records, reject on the first record whose tag
      similarity exceeds the limit, fail if the iteration breaks first. */
  function CheckDuplicate(candidate: AddressItem, results: seq<Doc>, stop: Stop): (v: Verdict)
    ensures v.Duplicate? <==>
      exists i :: 0 <= i < |Delivered(results, stop)| && RejectsAgainst(candidate, Delivered(results, stop)[i])
    ensures v.ScanFailed? <==>
      stop.BrokenAfter? && forall i :: 0 <= i < |Delivered(results, stop)| ==> !RejectsAgainst(candidate, Delivered(results, stop)[i])
    ensures v.Duplicate? ==> Strings.IsInfix(candidate.name, v.message)
    ensures v.Duplicate? ==>
      var seen := Delivered(results, stop);
      var k := FirstRejecting(candidate, seen);
      k < |seen| && v.message == DuplicateMessage(candidate.name, CompareTags(candidate.tags, seen[k].data.item.tags))
    ensures v.ScanFailed? ==> v.error == Wrap("failed to check for duplicate records", stop.err)
  {
    var seen := Delivered(results, stop);
    var k := FirstRejecting(candidate, seen);
    if k < |seen| then
      Duplicate(DuplicateMessage(candidate.name, CompareTags(candidate.tags, seen[k].data.item.tags)))
    else if stop.BrokenAfter? then
      ScanFailed(Wrap("failed to check for duplicate records", stop.err))
    else
      Clear
  }

  // --------------------------------------------------------------- create

  datatype CreateOptions = CreateOptions(language: Languages.Language, item: AddressItem)

  /** A successful create: the id handed back and the record written to
      `collection`. */
  datatype Created = Created(id: string, collection: string, stored: AddressItem)

  /** The record as written: the store's id and `now` for both timestamps. */
  function Stamp(item: AddressItem, id: string, now: int): (r: AddressItem)
    ensures r.id == id && r.createdAt == now && r.updatedAt == now
    ensures r.name == item.name && r.briefIntro == item.briefIntro
    ensures r.tags == item.tags && r.address == item.address
  {
    item.(id := id, createdAt := now, updatedAt := now)
  }

  /** What the create does with the guard's verdict: a refusal or a scan
      failure is returned as is, otherwise the stamped record is written and
      a failed write is wrapped. */
  function Commit(
    verdict: Verdict, collection: string, item: AddressItem,
    now: int, newId: string, setError: Option<string>): (r: Result<Created>)
    ensures verdict.Duplicate? ==> r == Err(verdict.message)
    ensures verdict.ScanFailed? ==> r == Err(verdict.error)
    ensures verdict.Clear? && setError.Some? ==> r == Err(Wrap("failed to create address", setError.value))
    ensures verdict.Clear? && setError.None? ==> r == Ok(Created(newId, collection, Stamp(item, newId, now)))
  {
    match verdict
    case Duplicate(msg) => Err(msg)
    case ScanFailed(e) => Err(e)
    case Clear =>
      match setError
      case Some(e) => Err(Wrap("failed to create address", e))
      case None => Ok(Created(newId, collection, Stamp(item, newId, now)))
  }

  /** `CreateNewAddress`: the duplicate guard over the first
      `GetByNameLimit` same-name records, then a write. `now` is the clock,
      `newId` the id the store assigns, `setError` the write's failure. */
  function CreateNewAddress(
    mode: string, opts: CreateOptions, store: Store, scan: Stop,
    now: int, newId: string, setError: Option<string>): (r: Result<Created>)
    ensures
      var results := Take(SameName(store(CollectionName(mode, opts.language)), opts.item.name), GetByNameLimit);
      r.Ok? <==> CheckDuplicate(opts.item, results, scan).Clear? && setError.None?
    ensures r.Ok? ==> r.value.collection == CollectionName(mode, opts.language)
    ensures r.Ok? ==> r.value.id == newId && r.value.stored == Stamp(opts.item, newId, now)
  {
    var collection := CollectionName(mode, opts.language);
    var results := Take(SameName(store(collection), opts.item.name), GetByNameLimit);
    Commit(CheckDuplicate(opts.item, results, scan), collection, opts.item, now, newId, setError)
  }

  /** A rejection needs a decodable same-name record, among the first
      `GetByNameLimit` of them, whose similarity exceeds the limit; the
      create then fails with a message naming the candidate. */
  lemma RejectionHasWitness(
    mode: string, opts: CreateOptions, store: Store, scan: Stop,
    now: int, newId: string, setError: Option<string>)
    ensures
      var results := Take(SameName(store(CollectionName(mode, opts.language)), opts.item.name), GetByNameLimit);
      var r := CreateNewAddress(mode, opts, store, scan, now, newId, setError);
      CheckDuplicate(opts.item, results, scan).Duplicate? ==>
        && r.Err? && Strings.IsInfix(opts.item.name, r.error)
        && exists d :: d in store(CollectionName(mode, opts.language)) && d.name == opts.item.name && RejectsAgainst(opts.item, d)
  {
    var results := Take(SameName(store(CollectionName(mode, opts.language)), opts.item.name), GetByNameLimit);
    if CheckDuplicate(opts.item, results, scan).Duplicate? {
      var seen := Delivered(results, scan);
      var i :| 0 <= i < |seen| && RejectsAgainst(opts.item, seen[i]);
      assert seen[i] == results[i];
      assert seen[i] in SameName(store(CollectionName(mode, opts.language)), opts.item.name);
    }
  }

  /** A candidate with no tags is never rejected as a duplicate. */
  lemma EmptyTagsNeverDuplicate(candidate: AddressItem, results: seq<Doc>, stop: Stop)
    requires candidate.tags == []
    ensures !CheckDuplicate(candidate, results, stop).Duplicate?
  {
  }

  /** Once `GetByNameLimit` same-name records exist, records appended after
      them do not change what the bounded same-name query returns. */
  lemma {:induction false} QueryIgnoresRecordsPastCap(docs: seq<Doc>, extra: seq<Doc>, name: string)
    requires |SameName(docs, name)| >= GetByNameLimit
    ensures Take(SameName(docs + extra, name), GetByNameLimit) == Take(SameName(docs, name), GetByNameLimit)
  {
    var a := SameName(docs, name);
    var b := SameName(extra, name);
    SameNameAppend(docs, extra, name);
    assert (a + b)[..GetByNameLimit] == a[..GetByNameLimit];
  }

  /** Records after the tenth same-name record are never looked at: a
      duplicate found only there does not block the create. */
  lemma ScanIgnoresRecordsPastCap(
    mode: string, opts: CreateOptions, store: Store, extraStore: Store, extra: seq<Doc>,
    scan: Stop, now: int, newId: string, setError: Option<string>)
    requires |SameName(store(CollectionName(mode, opts.language)), opts.item.name)| >= GetByNameLimit
    requires extraStore(CollectionName(mode, opts.language)) == store(CollectionName(mode, opts.language)) + extra
    ensures CreateNewAddress(mode, opts, extraStore, scan, now, newId, setError)
         == CreateNewAddress(mode, opts, store, scan, now, newId, setError)
  {
    QueryIgnoresRecordsPastCap(store(CollectionName(mode, opts.language)), extra, opts.item.name);
  }

  // -------------------------------------------------------------- listing

  datatype ListOptions = ListOptions(language: Languages.Language, tags: seq<string>, limit: int)

  /** `array-contains-any`: the document's tags share at least one value
      with `tags`. */
  predicate SharesTag(d: Doc, tags: seq<string>)
  {
    exists i :: 0 <= i < |tags| && tags[i] in d.tags
  }

  /** The tag filter, applied only when the filter list is non-empty. */
  predicate Selected(d: Doc, tags: seq<string>)
  {
    |tags| == 0 || SharesTag(d, tags)
  }

  function FilterByTags(docs: seq<Doc>, tags: seq<string>): (r: seq<Doc>)
    ensures |r| <= |docs|
    ensures forall i :: 0 <= i < |r| ==> Selected(r[i], tags) && r[i] in docs
    ensures forall d :: d in docs && Selected(d, tags) ==> d in r
    ensures |tags| == 0 ==> r == docs
  {
    if |docs| == 0 then []
    else
      var rest := FilterByTags(docs[1..], tags);
      assert forall d :: d in docs[1..] ==> d in docs;
      var r := if Selected(docs[0], tags) then [docs[0]] + rest else rest;
      assert forall d :: d in docs && Selected(d, tags) ==> d in r by {
        forall d | d in docs && Selected(d, tags)
          ensures d in r
        {
          if d != docs[0] {
            assert d in docs[1..];
          }
        }
      }
      r
  }

  /** The tag filter keeps store order and multiplicity: it is the stored
      sequence with exactly the unselected documents left out. */
  lemma {:induction false} FilterByTagsExact(docs: seq<Doc>, tags: seq<string>)
    ensures IsSubsequence(FilterByTags(docs, tags), docs)
    ensures forall d :: multiset(FilterByTags(docs, tags))[d] == if Selected(d, tags) then multiset(docs)[d] else 0
    decreases |docs|
  {
    if |docs| > 0 {
      FilterByTagsExact(docs[1..], tags);
      var rest := FilterByTags(docs[1..], tags);
      assert docs == [docs[0]] + docs[1..];
      assert multiset(docs) == multiset{docs[0]} + multiset(docs[1..]);
      if Selected(docs[0], tags) {
        var r := FilterByTags(docs, tags);
        assert r == [docs[0]] + rest;
        assert r[1..] == rest;
        assert multiset(r) == multiset{docs[0]} + multiset(rest);
      }
    }
  }

  /** The documents the listing query yields: filter, then the limit when
      it is positive. */
  function QueryResults(docs: seq<Doc>, opts: ListOptions): (r: seq<Doc>)
    ensures opts.limit > 0 ==> |r| <= opts.limit
    ensures forall i :: 0 <= i < |r| ==> Selected(r[i], opts.tags) && r[i] in docs
    ensures r <= FilterByTags(docs, opts.tags)
    ensures opts.limit > 0 ==>
      |r| == if |FilterByTags(docs, opts.tags)| < opts.limit then |FilterByTags(docs, opts.tags)| else opts.limit
    ensures opts.limit <= 0 ==> r == FilterByTags(docs, opts.tags)
  {
    var filtered := FilterByTags(docs, opts.tags);
    if opts.limit > 0 then Take(filtered, opts.limit as nat) else filtered
  }

  /** The decodable records among `docs`, in order; the others are skipped. */
  function DecodedItems(docs: seq<Doc>): (r: seq<AddressItem>)
    ensures |r| <= |docs|
    ensures forall x :: x in r ==> exists d :: d in docs && d.data == Decoded(x)
    ensures forall d :: d in docs && d.data.Decoded? ==> d.data.item in r
    ensures (forall i :: 0 <= i < |docs| ==> docs[i].data.Decoded?) ==> |r| == |docs|
  {
    if |docs| == 0 then []
    else
      var rest := DecodedItems(docs[1..]);
      assert forall d :: d in docs[1..] ==> d in docs;
      match docs[0].data
      case Decoded(x) => [x] + rest
      case Undecodable(_) => rest
  }

  /** A single document contributes its record when it decodes, and
      nothing otherwise. */
  lemma DecodedItemsSingleton(d: Doc)
    ensures DecodedItems([d]) == if d.data.Decoded? then [d.data.item] else []
  {
    assert [d][1..] == [];
  }

  /** Decoding distributes over concatenation: the records keep the order
      and multiplicity of the documents they come from. */
  lemma {:induction false} DecodedItemsAppend(a: seq<Doc>, b: seq<Doc>)
    ensures DecodedItems(a + b) == DecodedItems(a) + DecodedItems(b)
    decreases |a|
  {
    if |a| == 0 {
      assert a + b == b;
    } else {
      assert (a + b)[1..] == a[1..] + b;
      DecodedItemsAppend(a[1..], b);
    }
  }

  /** `xs` is `ys` with some elements left out, order kept. */
  predicate IsSubsequence<T(==)>(xs: seq<T>, ys: seq<T>)
    decreases |ys|
  {
    |xs| == 0 || (|ys| > 0 && ((xs[0] == ys[0] && IsSubsequence(xs[1..], ys[1..])) || IsSubsequence(xs, ys[1..])))
  }

  lemma {:induction false} SubsequenceTrans<T>(xs: seq<T>, ys: seq<T>, zs: seq<T>)
    requires IsSubsequence(xs, ys) && IsSubsequence(ys, zs)
    ensures IsSubsequence(xs, zs)
    decreases |zs|
  {
    if |xs| > 0 {
      if ys[0] == zs[0] && IsSubsequence(ys[1..], zs[1..]) {
        if xs[0] == ys[0] && IsSubsequence(xs[1..], ys[1..]) {
          SubsequenceTrans(xs[1..], ys[1..], zs[1..]);
        } else {
          SubsequenceTrans(xs, ys[1..], zs[1..]);
        }
      } else {
        SubsequenceTrans(xs, ys, zs[1..]);
      }
    }
  }

  lemma {:induction false} PrefixIsSubsequence<T>(xs: seq<T>, ys: seq<T>)
    requires xs <= ys
    ensures IsSubsequence(xs, ys)
    decreases |ys|
  {
    if |xs| > 0 {
      PrefixIsSubsequence(xs[1..], ys[1..]);
    }
  }

  lemma {:induction false} DecodedItemsPreservesSubsequence(xs: seq<Doc>, ys: seq<Doc>)
    requires IsSubsequence(xs, ys)
    ensures IsSubsequence(DecodedItems(xs), DecodedItems(ys))
    decreases |ys|
  {
    if |xs| == 0 {
    } else if xs[0] == ys[0] && IsSubsequence(xs[1..], ys[1..]) {
      DecodedItemsPreservesSubsequence(xs[1..], ys[1..]);
      if xs[0].data.Decoded? {
        assert DecodedItems(xs)[1..] == DecodedItems(xs[1..]);
        assert DecodedItems(ys)[1..] == DecodedItems(ys[1..]);
      }
    } else {
      DecodedItemsPreservesSubsequence(xs, ys[1..]);
      if ys[0].data.Decoded? {
        SkipHead(DecodedItems(xs), DecodedItems(ys));
      }
    }
  }

  lemma SkipHead<T>(xs: seq<T>, ys: seq<T>)
    requires |ys| > 0 && IsSubsequence(xs, ys[1..])
    ensures IsSubsequence(xs, ys)
  {
  }

  /** `GetAllAddresses`: the decodable records of the filtered, limited
      query in store order; any iteration error fails the whole call and
      returns no partial list. */
  function GetAllAddresses(mode: string, opts: ListOptions, store: Store, stop: Stop): (r: Result<seq<AddressItem>>)
    ensures r.Err? <==> stop.BrokenAfter?
    ensures r.Err? ==> r.error == Wrap("failed to fetch addresses", stop.err)
    ensures r.Ok? && opts.limit > 0 ==> |r.value| <= opts.limit
    ensures r.Ok? ==> forall x :: x in r.value ==>
      exists d :: d in store(CollectionName(mode, opts.language)) && d.data == Decoded(x) && Selected(d, opts.tags)
    ensures r.Ok? ==> IsSubsequence(r.value, DecodedItems(store(CollectionName(mode, opts.language))))
    ensures r.Ok? ==> r.value == DecodedItems(QueryResults(store(CollectionName(mode, opts.language)), opts))
    ensures r.Ok? ==> forall d :: d in QueryResults(store(CollectionName(mode, opts.language)), opts) && d.data.Decoded? ==>
      d.data.item in r.value
    ensures r.Ok? && opts.limit <= 0 ==> forall d :: d in store(CollectionName(mode, opts.language)) && Selected(d, opts.tags) && d.data.Decoded? ==>
      d.data.item in r.value
  {
    var docs := store(CollectionName(mode, opts.language));
    var results := QueryResults(docs, opts);
    var filtered := FilterByTags(docs, opts.tags);
    FilterByTagsExact(docs, opts.tags);
    PrefixIsSubsequence(results, filtered);
    SubsequenceTrans(results, filtered, docs);
    DecodedItemsPreservesSubsequence(results, docs);
    match stop
    case BrokenAfter(_, e) => Err(Wrap("failed to fetch addresses", e))
    case Done => Ok(DecodedItems(results))
  }

  /** With no filter and no limit the listing returns every decodable record
      of the language's collection. */
  lemma UnfilteredUnlimitedListsAll(mode: string, language: Languages.Language, store: Store, limit: int)
    requires limit <= 0
    ensures GetAllAddresses(mode, ListOptions(language, [], limit), store, Done)
         == Ok(DecodedItems(store(CollectionName(mode, language))))
  {
  }

  // --------------------------------------------------------- lookup by id

  datatype GetByIdOptions = GetByIdOptions(language: Languages.Language, id: string)

  /** `GetAddressById`. `get` is the store's document read by collection
      and id; its own error text is logged, not returned. */
  function GetAddressById(mode: string, opts: GetByIdOptions, get: (string, string) -> Result<Decoded>): (r: Result<AddressItem>)
    ensures
      var g := get(CollectionName(mode, opts.language), opts.id);
      && (r.Ok? <==> g.Ok? && g.value.Decoded?)
      && (r.Ok? ==> r.value == g.value.item)
      && (g.Err? ==> r.error == "failed to get address with ID " + opts.id)
      && (g.Ok? && g.value.Undecodable? ==> r.error == Wrap("failed to parse address data", g.value.reason))
  {
    match get(CollectionName(mode, opts.language), opts.id)
    case Err(_) => Err("failed to get address with ID " + opts.id)
    case Ok(Undecodable(reason)) => Err(Wrap("failed to parse address data", reason))
    case Ok(Decoded(item)) => Ok(item)
  }
}
