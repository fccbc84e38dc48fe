/**
 * A disease is a (specialism, diagnosis code) pair. The description some
 * callers attach is metadata: it takes no part in equality or hashing.
 */
module Diseases {
  import opened Wrappers

  /** What `Disease.__eq__` and `Disease.__hash__` look at. */
  datatype DiseaseId = DiseaseId(spec: string, diag: string)

  datatype Disease = Disease(spec: string, diag: string, description: Option<string>)
  {
    function Id(): DiseaseId
    {
      DiseaseId(spec, diag)
    }
  }

  /** `Disease.__eq__`: equal exactly when specialism and code are. */
  predicate Equal(a: Disease, b: Disease)
    ensures Equal(a, b) <==> a.Id() == b.Id()
  {
    a.spec == b.spec && a.diag == b.diag
  }

  /**
   * `Disease.__hash__`: the sum of the hashes of the two strings. Python's
   * string hash is salted per process, so it is a parameter here.
   */
  function Hash(d: Disease, strHash: string -> int): int
  {
    strHash(d.spec) + strHash(d.diag)
  }

  /** `Disease.__repr__`: `(spec, diag)`. */
  function Repr(d: Disease): (r: string)
    ensures |r| == |d.spec| + |d.diag| + 4
    ensures r[0] == '(' && r[|r| - 1] == ')'
    ensures r[1..1 + |d.spec|] == d.spec
    ensures r[1 + |d.spec|..3 + |d.spec|] == ", " && r[3 + |d.spec|..|r| - 1] == d.diag
  {
    "(" + d.spec + ", " + d.diag + ")"
  }

  /** Equality is decided by the identity pair alone, and is an equivalence. */
  lemma EqualIsIdentity(a: Disease, b: Disease, c: Disease)
    ensures Equal(a, b) <==> a.Id() == b.Id()
    ensures Equal(a, a)
    ensures Equal(a, b) ==> Equal(b, a)
    ensures Equal(a, b) && Equal(b, c) ==> Equal(a, c)
  {
  }

  /** Equal diseases have equal hashes, whatever the string hash is. */
  lemma EqualDiseasesHashEqually(a: Disease, b: Disease, strHash: string -> int)
    requires Equal(a, b)
    ensures Hash(a, strHash) == Hash(b, strHash)
  {
  }

  /** The fixture of the disease tests: descriptions do not matter, codes do. */
  lemma DiseaseFixture()
    ensures Repr(Disease("TEST1", "000", None)) == "(TEST1, 000)"
    ensures Equal(Disease("TEST1", "000", None), Disease("TEST1", "000", Some("Test 1")))
    ensures !Equal(Disease("TEST1", "000", None), Disease("TEST2", "000", None))
    ensures !Equal(Disease("TEST1", "000", None), Disease("TEST1", "001", None))
    ensures !Equal(Disease("TEST1", "000", None), Disease("TEST2", "001", None))
  {
  }
}
