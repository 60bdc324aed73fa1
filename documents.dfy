/** The Bills & Documents screen (src/components/BillsDocuments.tsx): the two
    tabs split the registry by kind, each card names its project, and the
    search box filters both tabs by title or project name, ignoring case. */
module Documents {
  import opened Records
  import Seqs

  const UnknownProject: string := "Unknown Project"

  predicate IsBill(d: Document) { d.kind == Bill }

  predicate IsDoc(d: Document) { d.kind == Doc }

  /** documents.filter((doc) => doc.type === 'bill') */
  function Bills(documents: seq<Document>): (r: seq<Document>)
    ensures forall i :: 0 <= i < |r| ==> r[i] in documents && r[i].kind == Bill
    ensures forall i :: 0 <= i < |documents| && documents[i].kind == Bill ==> documents[i] in r
  {
    Seqs.Filter(documents, IsBill)
  }

  /** documents.filter((doc) => doc.type === 'document') */
  function Docs(documents: seq<Document>): (r: seq<Document>)
    ensures forall i :: 0 <= i < |r| ==> r[i] in documents && r[i].kind == Doc
    ensures forall i :: 0 <= i < |documents| && documents[i].kind == Doc ==> documents[i] in r
  {
    Seqs.Filter(documents, IsDoc)
  }

  /** The two tabs hold every document exactly once, each in registry order. */
  lemma TabsPartition(documents: seq<Document>)
    ensures |Bills(documents)| + |Docs(documents)| == |documents|
    ensures multiset(Bills(documents)) + multiset(Docs(documents)) == multiset(documents)
    ensures Seqs.IsSubsequence(Bills(documents), documents) && Seqs.IsSubsequence(Docs(documents), documents)
    ensures forall d :: d in Bills(documents) <==> d in documents && d.kind == Bill
    ensures forall d :: d in Docs(documents) <==> d in documents && d.kind == Doc
  {
    Seqs.FilterPartition(documents, IsBill, IsDoc);
    Seqs.FilterIsSubsequence(documents, IsBill);
    Seqs.FilterIsSubsequence(documents, IsDoc);
  }

  /** projects.find((p) => p.id === projectId)?.name || 'Unknown Project' */
  function GetProjectName(projects: seq<Project>, projectId: string): (name: string)
    ensures (forall j :: 0 <= j < |projects| ==> projects[j].id != projectId) ==> name == UnknownProject
    ensures forall i :: 0 <= i < |projects| && projects[i].id == projectId && (forall j :: 0 <= j < i ==> projects[j].id != projectId)
              ==> name == (if projects[i].name == "" then UnknownProject else projects[i].name)
  {
    if projects == [] then UnknownProject
    else if projects[0].id == projectId then (if projects[0].name == "" then UnknownProject else projects[0].name)
    else GetProjectName(projects[1..], projectId)
  }

  /** ASCII case folding of one character. */
  function LowerChar(c: char): (d: char)
    ensures !('A' <= d <= 'Z')
    ensures !('A' <= c <= 'Z') ==> d == c
    ensures 'A' <= c <= 'Z' ==> 'a' <= d <= 'z' && d as int - 'a' as int == c as int - 'A' as int
  {
    if 'A' <= c <= 'Z' then (c as int - 'A' as int + 'a' as int) as char else c
  }

  /** String.prototype.toLowerCase restricted to ASCII letters. */
  function ToLower(s: string): (r: string)
    ensures |r| == |s|
    ensures forall i :: 0 <= i < |s| ==> r[i] == LowerChar(s[i])
  {
    if s == [] then [] else [LowerChar(s[0])] + ToLower(s[1..])
  }

  /** String.prototype.includes: sub occurs in s as a contiguous block. */
  predicate Includes(s: string, sub: string)
  {
    if |sub| <= |s| && s[..|sub|] == sub then true
    else if s == [] then false
    else Includes(s[1..], sub)
  }

  /** sub occurs in s starting at position i. */
  predicate OccursAt(s: string, sub: string, i: int)
  {
    0 <= i && i + |sub| <= |s| && s[i..i + |sub|] == sub
  }

  /** The usual definition of a substring: sub occurs in s at some position. */
  ghost predicate Contains(s: string, sub: string)
  {
    exists i :: OccursAt(s, sub, i)
  }

  /** Includes agrees with the usual definition of a substring. */
  lemma {:induction false} IncludesIff(s: string, sub: string)
    ensures Includes(s, sub) <==> exists i :: OccursAt(s, sub, i)
  {
    if |sub| <= |s| && s[..|sub|] == sub {
      assert OccursAt(s, sub, 0);
    } else if s == [] {
    } else {
      IncludesIff(s[1..], sub);
      if exists i :: OccursAt(s, sub, i) {
        var i :| OccursAt(s, sub, i);
        assert i != 0;
        assert s[1..][i - 1..i - 1 + |sub|] == s[i..i + |sub|];
        assert OccursAt(s[1..], sub, i - 1);
      }
      if exists k :: OccursAt(s[1..], sub, k) {
        var k :| OccursAt(s[1..], sub, k);
        assert s[k + 1..k + 1 + |sub|] == s[1..][k..k + |sub|];
        assert OccursAt(s, sub, k + 1);
      }
    }
  }

  /** The search matches a document by its title or by its project's name:
      the lowercased query occurs in the lowercased title or project name. */
  function Matches(projects: seq<Project>, query: string, d: Document): (b: bool)
    ensures b <==> Contains(ToLower(d.title), ToLower(query))
                    || Contains(ToLower(GetProjectName(projects, d.projectId)), ToLower(query))
  {
    var title, name, q := ToLower(d.title), ToLower(GetProjectName(projects, d.projectId)), ToLower(query);
    IncludesIff(title, q);
    IncludesIff(name, q);
    Includes(title, q) || Includes(name, q)
  }

  /** The tab contents for the search box's current query. */
  function FilteredDocuments(docs: seq<Document>, projects: seq<Project>, query: string): (r: seq<Document>)
    ensures query == "" ==> r == docs
    ensures Seqs.IsSubsequence(r, docs)
    ensures forall i :: 0 <= i < |r| ==> r[i] in docs && Matches(projects, query, r[i])
    ensures forall i :: 0 <= i < |docs| && Matches(projects, query, docs[i]) ==> docs[i] in r
    ensures forall d :: multiset(r)[d] == if Matches(projects, query, d) then multiset(docs)[d] else 0
  {
    var keep := (d: Document) => Matches(projects, query, d);
    if query == "" then
      EmptyQueryMatchesAll(docs, projects);
      Seqs.FilterAll(docs, keep);
      Seqs.FilterIsSubsequence(docs, keep);
      docs
    else
      Seqs.FilterIsSubsequence(docs, keep);
      Seqs.FilterCount(docs, keep);
      Seqs.Filter(docs, keep)
  }

  /** Every document matches the empty query, so the early return for an
      empty query changes nothing. */
  lemma EmptyQueryMatchesAll(docs: seq<Document>, projects: seq<Project>)
    ensures forall d :: Matches(projects, "", d)
  {
  }

  /** Lowercasing twice is lowercasing once. */
  lemma ToLowerIdempotent(s: string)
    ensures ToLower(ToLower(s)) == ToLower(s)
  {
  }

  /** The search ignores the case of ASCII letters in the query. */
  lemma QueryCaseIgnored(projects: seq<Project>, query: string, d: Document)
    ensures Matches(projects, ToLower(query), d) == Matches(projects, query, d)
  {
    ToLowerIdempotent(query);
  }
}
