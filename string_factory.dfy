/** The factory the engine calls to materialise string literals: every
    literal is a heap `std::string` whose identity is tracked in a table of
    reference counts. */
module StringFactory {
  import opened Common

  /** A heap-allocated `std::string`; its identity is the pointer the engine
      holds. */
  class StringObject {
    const text: string

    constructor (text: string)
      ensures this.text == text
    {
      this.text := text;
    }
  }

  /** Every tracked object has a positive count. */
  ghost predicate CountsPositive<K>(counts: map<K, int>)
  {
    forall k :: k in counts ==> counts[k] >= 1
  }

  /** The status and the table after releasing `k` from `counts`: unknown
      objects are an error, otherwise the count drops by one and the object
      leaves the table when it reaches zero. The tracked objects stay the
      same except that `k` leaves exactly when its count was 1. */
  function Release<K>(counts: map<K, int>, k: K): (r: (int, map<K, int>))
    ensures r.0 == AS_SUCCESS <==> k in counts
    ensures r.0 != AS_SUCCESS ==> r.0 == AS_ERROR
    ensures r.1.Keys == if k in counts && counts[k] == 1 then counts.Keys - {k} else counts.Keys
  {
    if k !in counts then (AS_ERROR, counts)
    else if counts[k] - 1 == 0 then (AS_SUCCESS, counts - {k})
    else (AS_SUCCESS, counts[k := counts[k] - 1])
  }

  /** Releasing an untracked object fails and changes nothing. */
  lemma ReleaseUnknown<K>(counts: map<K, int>, k: K)
    requires k !in counts
    ensures Release(counts, k) == (AS_ERROR, counts)
  {
  }

  /** Releasing a tracked object succeeds, lowers its count by one and
      removes it exactly when that count reaches zero; no other entry moves. */
  lemma ReleaseTracked<K>(counts: map<K, int>, k: K)
    requires k in counts
    ensures Release(counts, k).0 == AS_SUCCESS
    ensures k in Release(counts, k).1 <==> counts[k] != 1
    ensures k in Release(counts, k).1 ==> Release(counts, k).1[k] == counts[k] - 1
    ensures forall j :: j != k ==> (j in Release(counts, k).1 <==> j in counts)
    ensures forall j :: j != k && j in counts ==> Release(counts, k).1[j] == counts[j]
  {
  }

  /** Releasing keeps every tracked count positive. */
  lemma ReleaseKeepsCountsPositive<K>(counts: map<K, int>, k: K)
    requires CountsPositive(counts)
    ensures CountsPositive(Release(counts, k).1)
  {
  }

  /** The engine's lifecycle of one literal: a fresh object entered with
      count 1 and released once leaves the table exactly as it was. */
  lemma GetThenReleaseRestores<K>(counts: map<K, int>, k: K)
    requires k !in counts
    ensures Release(counts[k := 1], k) == (AS_SUCCESS, counts)
  {
    assert counts[k := 1] - {k} == counts;
  }

  /** `CStringFactory`: `refCounts` is `m_RefCounts`. */
  class Factory {
    var refCounts: map<StringObject, int>

    ghost predicate Valid()
      reads this
    {
      CountsPositive(refCounts)
    }

    constructor ()
      ensures Valid() && refCounts == map[]
    {
      refCounts := map[];
    }

    /** Allocates a new string holding `data`, never reusing an existing
        object, and tracks it with count 1. */
    method GetStringConstant(data: string) returns (p: StringObject)
      requires Valid()
      modifies this
      ensures Valid()
      ensures fresh(p) && p.text == data
      ensures p !in old(refCounts)
      ensures refCounts == old(refCounts)[p := 1]
    {
      p := new StringObject(data);
      refCounts := refCounts[p := 1];
    }

    /** Drops one reference to `str`; a null pointer is never tracked, so it
        gives `asERROR` and changes nothing, and otherwise the status and the
        new table are those of `Release`. */
    method ReleaseStringConstant(str: StringObject?) returns (r: int)
      requires Valid()
      modifies this
      ensures Valid()
      ensures str == null ==> r == AS_ERROR && refCounts == old(refCounts)
      ensures str != null ==> (r, refCounts) == Release(old(refCounts), str)
    {
      if str == null || str !in refCounts {
        return AS_ERROR;
      }
      var count := refCounts[str] - 1;
      if count == 0 {
        refCounts := refCounts - {str};
      } else {
        refCounts := refCounts[str := count];
      }
      ReleaseKeepsCountsPositive(old(refCounts), str);
      r := AS_SUCCESS;
    }

    /** Reports the length of `str` (cut to 32 bits) when asked for it and
        its characters when a buffer is given; always succeeds, whether or not
        `str` is tracked. */
    method GetRawStringData(str: StringObject, wantData: bool, wantLength: bool)
      returns (r: int, data: Option<string>, length: Option<AsUint>)
      ensures r == AS_SUCCESS
      ensures length == if wantLength then Some((|str.text| % UINT_LIMIT) as AsUint) else None
      ensures data == if wantData then Some(str.text) else None
    {
      length := None;
      if wantLength {
        length := Some((|str.text| % UINT_LIMIT) as AsUint);
      }
      data := None;
      if wantData {
        data := Some(str.text);
      }
      r := AS_SUCCESS;
    }
  }
}
