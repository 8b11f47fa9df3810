/** Deterministic names: the binding name derived from an export and the
    placement name derived from the selectors, plus the split of a
    qualified export name into its workspace path and its export name. */
module Naming {
  import opened StringUtil

  /** A character of a lower-cased base36 encoding. */
  predicate IsBase36Lower(c: char)
  {
    ('0' <= c <= '9') || ('a' <= c <= 'z')
  }

  /** The output of SHA-224 followed by base36 encoding and lower-casing.
      The hash itself is not modelled; all that is relied on is that the
      encoding is made of lower-case base36 characters and has at least as
      many of them as are taken from it. */
  type Digest = s: string | 8 <= |s| && forall i :: 0 <= i < |s| ==> IsBase36Lower(s[i])
    witness "00000000"

  /** A deterministic hash from a seed string to its encoded digest. */
  type Hasher = string -> Digest

  /** Length limit of a DNS-1123 subdomain, the limit on object names. */
  const DNS1123_SUBDOMAIN_MAX_LENGTH: nat := 253
  /** Length limit of a DNS-1123 label. */
  const DNS1123_LABEL_MAX_LENGTH: nat := 63
  /** Number of digest characters used in a generated name. */
  const HASH_LENGTH: nat := 8
  /** The longest export-name prefix a binding name keeps. */
  const MAX_BINDING_NAME_PREFIX_LENGTH: nat := DNS1123_SUBDOMAIN_MAX_LENGTH - 1 - HASH_LENGTH

  /** The first eight characters of the digest of `seed`. */
  function Hash8(hash: Hasher, seed: string): (r: string)
    ensures |r| == HASH_LENGTH
    ensures forall i :: 0 <= i < |r| ==> IsBase36Lower(r[i])
  {
    hash(seed)[..HASH_LENGTH]
  }

  /** The name of the binding for export `exportName` of the workspace whose
      path is `seed`: the export name cut to the prefix budget, a dash and
      eight digest characters of the workspace path. */
  function ApiBindingName(hash: Hasher, seed: string, exportName: string): (r: string)
    ensures |r| <= DNS1123_SUBDOMAIN_MAX_LENGTH
    ensures |exportName| <= MAX_BINDING_NAME_PREFIX_LENGTH ==>
              |r| == |exportName| + 1 + HASH_LENGTH && r[..|exportName|] == exportName
    ensures |exportName| > MAX_BINDING_NAME_PREFIX_LENGTH ==>
              |r| == DNS1123_SUBDOMAIN_MAX_LENGTH
              && r[..MAX_BINDING_NAME_PREFIX_LENGTH] == exportName[..MAX_BINDING_NAME_PREFIX_LENGTH]
    ensures |r| >= 1 + HASH_LENGTH && r[|r| - 1 - HASH_LENGTH] == '-'
    ensures r[|r| - HASH_LENGTH..] == Hash8(hash, seed)
  {
    var maxLen := if |exportName| > MAX_BINDING_NAME_PREFIX_LENGTH then MAX_BINDING_NAME_PREFIX_LENGTH else |exportName|;
    exportName[..maxLen] + "-" + Hash8(hash, seed)
  }

  /** Within the prefix budget, the name determines the export name:
      two exports of one workspace get distinct binding names. */
  lemma ApiBindingNameInjective(hash: Hasher, seed: string, n1: string, n2: string)
    requires |n1| <= MAX_BINDING_NAME_PREFIX_LENGTH && |n2| <= MAX_BINDING_NAME_PREFIX_LENGTH
    requires ApiBindingName(hash, seed, n1) == ApiBindingName(hash, seed, n2)
    ensures n1 == n2
  {
    var r := ApiBindingName(hash, seed, n1);
    assert |n1| == |r| - 1 - HASH_LENGTH == |n2|;
    assert n1 == r[..|n1|] == n2;
  }

  /** Past the prefix budget, only the first 244 characters count: export
      names of one workspace that agree on them share a binding name. */
  lemma ApiBindingNameTruncates(hash: Hasher, seed: string, n1: string, n2: string)
    requires |n1| > MAX_BINDING_NAME_PREFIX_LENGTH && |n2| > MAX_BINDING_NAME_PREFIX_LENGTH
    requires n1[..MAX_BINDING_NAME_PREFIX_LENGTH] == n2[..MAX_BINDING_NAME_PREFIX_LENGTH]
    ensures ApiBindingName(hash, seed, n1) == ApiBindingName(hash, seed, n2)
  {
    var r1, r2 := ApiBindingName(hash, seed, n1), ApiBindingName(hash, seed, n2);
    assert r1 == r1[..MAX_BINDING_NAME_PREFIX_LENGTH] + r1[MAX_BINDING_NAME_PREFIX_LENGTH..];
    assert r2 == r2[..MAX_BINDING_NAME_PREFIX_LENGTH] + r2[MAX_BINDING_NAME_PREFIX_LENGTH..];
    assert r1[MAX_BINDING_NAME_PREFIX_LENGTH..] == "-" + Hash8(hash, seed) == r2[MAX_BINDING_NAME_PREFIX_LENGTH..];
  }

  /** `logicalcluster.Name.Split`: a qualified name cut at its last colon
      into the parent workspace and the base name; without a colon the
      parent is empty and the whole string is the base name. */
  function Split(qualified: string): (r: (string, string))
    ensures ':' !in r.1
    ensures ':' in qualified ==> qualified == r.0 + ":" + r.1
    ensures ':' !in qualified ==> r == ("", qualified)
  {
    var i := LastIndex(qualified, ':');
    if i < 0 then ("", qualified)
    else
      assert qualified == qualified[..i] + ":" + qualified[i + 1..];
      (qualified[..i], qualified[i + 1..])
  }

  /** Splitting undoes qualification whenever the base name has no colon. */
  lemma SplitQualified(parent: string, name: string)
    requires ':' !in name
    ensures Split(parent + ":" + name) == (parent, name)
  {
    var s := parent + ":" + name;
    assert s[|parent|] == ':';
    var r := Split(s);
    assert s == r.0 + ":" + r.1;
    assert |r.1| == |name|;
    assert r.1 == s[|s| - |name|..] == name;
    assert r.0 == s[..|parent|] == parent;
  }

  /** Lower-case alphanumerics and dashes, starting and ending with an
      alphanumeric, at most 63 characters. */
  predicate IsDns1123Label(s: string)
  {
    && 0 < |s| <= DNS1123_LABEL_MAX_LENGTH
    && (forall i :: 0 <= i < |s| ==> IsBase36Lower(s[i]) || s[i] == '-')
    && IsBase36Lower(s[0]) && IsBase36Lower(s[|s| - 1])
  }

  const PLACEMENT_NAME_PREFIX := "placement-"

  /** The string hashed for a derived placement name: the namespace
      selector, the comma-joined location selectors and the location
      workspace, concatenated without separators. */
  function PlacementSeed(namespaceSelector: string, locationSelectors: seq<string>, locationWorkspace: string): string
  {
    namespaceSelector + Join(locationSelectors, ",") + locationWorkspace
  }

  /** The placement name used when none is given. */
  function DerivedPlacementName(hash: Hasher, namespaceSelector: string, locationSelectors: seq<string>, locationWorkspace: string): (r: string)
    ensures |r| == |PLACEMENT_NAME_PREFIX| + HASH_LENGTH
    ensures r[..|PLACEMENT_NAME_PREFIX|] == PLACEMENT_NAME_PREFIX
    ensures r[|PLACEMENT_NAME_PREFIX|..] == Hash8(hash, PlacementSeed(namespaceSelector, locationSelectors, locationWorkspace))
    ensures IsDns1123Label(r)
  {
    PLACEMENT_NAME_PREFIX + Hash8(hash, PlacementSeed(namespaceSelector, locationSelectors, locationWorkspace))
  }

  /** Because the seed has no separator between its three parts, moving a
      selector from the location list to the namespace selector keeps the
      seed and so the name. */
  lemma DerivedPlacementNameAmbiguous(hash: Hasher)
    ensures DerivedPlacementName(hash, "", ["a=b"], "root") == DerivedPlacementName(hash, "a=b", [""], "root")
  {
    assert PlacementSeed("", ["a=b"], "root") == "a=broot" == PlacementSeed("a=b", [""], "root");
  }
}
