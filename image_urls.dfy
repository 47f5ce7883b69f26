/** Image URL helpers: the development-port rewrite and the placeholder images. */
module ImageUrls {
  import opened Common

  const OldHost := "localhost:5000"
  const NewHost := "localhost:4000"

  const CertificatePlaceholder := "https://via.placeholder.com/400x300?text=Certificate"
  const ProjectPlaceholder := "https://via.placeholder.com/400x300?text=Project+Image"

  /** `p` occurs in `s` starting at position `i`. */
  predicate OccursAt(s: string, p: string, i: int)
  {
    0 <= i && i + |p| <= |s| && s[i..i + |p|] == p
  }

  predicate Contains(s: string, p: string)
  {
    exists i :: 0 <= i <= |s| && OccursAt(s, p, i)
  }

  /** The first position at or after `from` where `p` occurs in `s`. */
  function FindFrom(s: string, p: string, from: nat): (r: Option<nat>)
    decreases |s| - from
    ensures r.Some? ==> from <= r.value && OccursAt(s, p, r.value)
    ensures r.Some? ==> forall j :: from <= j < r.value ==> !OccursAt(s, p, j)
    ensures r.None? ==> forall j :: from <= j ==> !OccursAt(s, p, j)
  {
    if from + |p| > |s| then None
    else if s[from..from + |p|] == p then Some(from)
    else FindFrom(s, p, from + 1)
  }

  /** `s.indexOf(p)`, with `None` for -1. */
  function IndexOf(s: string, p: string): (r: Option<nat>)
    ensures r.None? <==> !Contains(s, p)
    ensures r.Some? ==> OccursAt(s, p, r.value) && forall j :: 0 <= j < r.value ==> !OccursAt(s, p, j)
  {
    FindFrom(s, p, 0)
  }

  /** `s.replace(p, q)` with a string pattern: only the first occurrence is replaced. */
  function ReplaceFirst(s: string, p: string, q: string): (r: string)
    ensures !Contains(s, p) ==> r == s
    ensures Contains(s, p) ==> var i := IndexOf(s, p).value;
      && |r| == |s| - |p| + |q|
      && r[..i] == s[..i] && r[i..i + |q|] == q && r[i + |q|..] == s[i + |p|..]
  {
    match IndexOf(s, p)
    case None => s
    case Some(i) => s[..i] + q + s[i + |p|..]
  }

  /** `fixImageUrl`: rewrites the first mention of the old development host to the new
      one; a URL without it (the empty URL included) comes back unchanged. */
  function FixImageUrl(url: string): (r: string)
    ensures |r| == |url|
    ensures !Contains(url, OldHost) ==> r == url
  {
    if url == "" then ""
    else if Contains(url, OldHost) then ReplaceFirst(url, OldHost, NewHost)
    else url
  }

  /** `getPlaceholderImage`: the certificate placeholder for 'certificate', the project one for anything else. */
  function PlaceholderImage(kind: string): (r: string)
    ensures kind == "certificate" <==> r == CertificatePlaceholder
    ensures kind != "certificate" ==> r == ProjectPlaceholder
  {
    if kind == "certificate" then CertificatePlaceholder else ProjectPlaceholder
  }

  /** With the old host present, exactly its first occurrence becomes the new host and
      the rest of the URL, and its length, stay as they were. */
  lemma FixReplacesFirst(url: string)
    requires Contains(url, OldHost)
    ensures var i := IndexOf(url, OldHost).value;
      && |FixImageUrl(url)| == |url|
      && FixImageUrl(url)[..i] == url[..i]
      && FixImageUrl(url)[i..i + |NewHost|] == NewHost
      && FixImageUrl(url)[i + |OldHost|..] == url[i + |OldHost|..]
      && forall j :: 0 <= j < i ==> !OccursAt(url, OldHost, j)
  {
    var i := IndexOf(url, OldHost).value;
    assert url != "";
    var r := url[..i] + NewHost + url[i + 14..];
    assert FixImageUrl(url) == r;
    assert r[..i] == url[..i];
    assert r[i..i + 14] == NewHost;
    assert r[i + 14..] == url[i + 14..];
  }

  /** No occurrence of the old host can overlap the new host written at `i`: some
      position shared by both windows holds different characters. */
  lemma NoOverlap(r: string, i: nat, j: int)
    requires i + 14 <= |r| && r[i..i + 14] == NewHost
    requires i - 14 < j < i + 14
    ensures !OccursAt(r, OldHost, j)
  {
    if 0 <= j && j + 14 <= |r| {
      var k := if j == i then i + 10
        else if j < i then (if i - j == 4 then i + 1 else i)
        else (if j - i == 4 then j + 1 else j);
      assert r[k] == r[i..i + 14][k - i] == NewHost[k - i];
      assert r[j..j + 14][k - j] == r[k];
      assert OldHost[k - j] != NewHost[k - i];
    }
  }

  /** A URL naming the old host once is fixed for good: the result names it no more,
      and fixing it again changes nothing. */
  lemma FixSingleOccurrence(url: string, i: nat)
    requires OccursAt(url, OldHost, i)
    requires forall j :: OccursAt(url, OldHost, j) ==> j == i
    ensures !Contains(FixImageUrl(url), OldHost)
    ensures FixImageUrl(FixImageUrl(url)) == FixImageUrl(url)
  {
    FixReplacesFirst(url);
    var r := FixImageUrl(url);
    assert IndexOf(url, OldHost).value == i;
    forall j | 0 <= j && j + 14 <= |r| ensures !OccursAt(r, OldHost, j) {
      if j + 14 <= i {
        assert r[j..j + 14] == r[..i][j..j + 14] == url[..i][j..j + 14] == url[j..j + 14];
        assert !OccursAt(url, OldHost, j);
      } else if j >= i + 14 {
        assert r[j..j + 14] == r[i + 14..][j - i - 14..j - i] == url[i + 14..][j - i - 14..j - i] == url[j..j + 14];
        assert !OccursAt(url, OldHost, j);
      } else {
        NoOverlap(r, i, j);
      }
    }
  }
}
