/** The sidebar filter: a project selector and a cloud-provider selector, each either
    the sentinel "All" (no filtering) or one value that a record's column must equal. */
module Filter {
  import opened Records

  /** The selector value that switches a filter off. */
  const ALL: string := "All"

  datatype Column = Project | CloudProvider

  function ColumnValue(r: Record, c: Column): string {
    match c
    case Project => r.project
    case CloudProvider => r.cloudProvider
  }

  /** Whether a record passes both selectors. */
  predicate Matches(r: Record, selectedProject: string, selectedProvider: string) {
    (selectedProject == ALL || r.project == selectedProject) &&
    (selectedProvider == ALL || r.cloudProvider == selectedProvider)
  }

  /** The boolean-mask selection `df[df[c] == v]`: the rows whose column `c` equals `v`,
      in their original order. */
  function Keep(rs: seq<Record>, c: Column, v: string): (kept: seq<Record>)
    ensures |kept| <= |rs|
    ensures forall x :: x in kept <==> x in rs && ColumnValue(x, c) == v
  {
    if rs == [] then []
    else
      assert rs == [rs[0]] + rs[1..];
      if ColumnValue(rs[0], c) == v then [rs[0]] + Keep(rs[1..], c, v)
      else Keep(rs[1..], c, v)
  }

  /** One selector: "All" passes every row through, any other value masks on column `c`. */
  function Select(rs: seq<Record>, c: Column, selection: string): (selected: seq<Record>)
    ensures selection == ALL ==> selected == rs
    ensures forall x :: x in selected <==> x in rs && (selection == ALL || ColumnValue(x, c) == selection)
  {
    if selection != ALL then Keep(rs, c, selection) else rs
  }

  /** The filtered frame: the project selector applied first, then the provider selector. */
  function FilterRecords(rs: seq<Record>, selectedProject: string, selectedProvider: string): (filtered: seq<Record>)
    ensures selectedProject == ALL && selectedProvider == ALL ==> filtered == rs
    ensures forall x :: x in filtered <==> x in rs && Matches(x, selectedProject, selectedProvider)
  {
    Select(Select(rs, Project, selectedProject), CloudProvider, selectedProvider)
  }

  /** `a` is obtained from `b` by deleting elements: same elements, same relative order. */
  ghost predicate IsSubsequence<T>(a: seq<T>, b: seq<T>)
    decreases |b|
  {
    if a == [] then true
    else if b == [] then false
    else (a[0] == b[0] && IsSubsequence(a[1..], b[1..])) || IsSubsequence(a, b[1..])
  }

  /** Reference definition: a single pass keeping the rows that pass both selectors. */
  function Where(rs: seq<Record>, selectedProject: string, selectedProvider: string): seq<Record> {
    if rs == [] then []
    else if Matches(rs[0], selectedProject, selectedProvider)
    then [rs[0]] + Where(rs[1..], selectedProject, selectedProvider)
    else Where(rs[1..], selectedProject, selectedProvider)
  }

  lemma {:induction false} WhereAllIsIdentity(rs: seq<Record>)
    ensures Where(rs, ALL, ALL) == rs
  {
    if rs != [] {
      WhereAllIsIdentity(rs[1..]);
      assert rs == [rs[0]] + rs[1..];
    }
  }

  lemma {:induction false} KeepIsWhere(rs: seq<Record>, c: Column, v: string)
    requires v != ALL
    ensures Keep(rs, c, v) == (if c == Project then Where(rs, v, ALL) else Where(rs, ALL, v))
  {
    if rs != [] {
      KeepIsWhere(rs[1..], c, v);
    }
  }

  lemma {:induction false} KeepKeepIsWhere(rs: seq<Record>, project: string, provider: string)
    requires project != ALL && provider != ALL
    ensures Keep(Keep(rs, Project, project), CloudProvider, provider) == Where(rs, project, provider)
  {
    if rs != [] {
      KeepKeepIsWhere(rs[1..], project, provider);
      var r := rs[0];
      if r.project == project {
        var rest := Keep(rs[1..], Project, project);
        assert Keep(rs, Project, project) == [r] + rest;
        assert ([r] + rest)[0] == r && ([r] + rest)[1..] == rest;
      }
    }
  }

  /** Filtering row by row with the two selectors in sequence is the same as keeping,
      in one pass, exactly the rows that pass both. */
  lemma {:induction false} FilterIsSinglePass(rs: seq<Record>, selectedProject: string, selectedProvider: string)
    ensures FilterRecords(rs, selectedProject, selectedProvider) == Where(rs, selectedProject, selectedProvider)
  {
    if selectedProject == ALL && selectedProvider == ALL {
      WhereAllIsIdentity(rs);
    } else if selectedProject == ALL {
      KeepIsWhere(rs, CloudProvider, selectedProvider);
    } else if selectedProvider == ALL {
      KeepIsWhere(rs, Project, selectedProject);
    } else {
      KeepKeepIsWhere(rs, selectedProject, selectedProvider);
    }
  }

  lemma {:induction false} WhereIsSubsequence(rs: seq<Record>, selectedProject: string, selectedProvider: string)
    ensures IsSubsequence(Where(rs, selectedProject, selectedProvider), rs)
  {
    if rs != [] {
      var w := Where(rs[1..], selectedProject, selectedProvider);
      WhereIsSubsequence(rs[1..], selectedProject, selectedProvider);
      if Matches(rs[0], selectedProject, selectedProvider) {
        assert ([rs[0]] + w)[0] == rs[0] && ([rs[0]] + w)[1..] == w;
      } else if w != [] {
        assert IsSubsequence(w, rs[1..]);
      }
    }
  }

  /** The filtered frame keeps the input order: it is a subsequence of the input. */
  lemma FilterIsSubsequence(rs: seq<Record>, selectedProject: string, selectedProvider: string)
    ensures IsSubsequence(FilterRecords(rs, selectedProject, selectedProvider), rs)
  {
    FilterIsSinglePass(rs, selectedProject, selectedProvider);
    WhereIsSubsequence(rs, selectedProject, selectedProvider);
  }

  lemma {:induction false} WhereKeepsMatching(rs: seq<Record>, selectedProject: string, selectedProvider: string)
    requires forall x :: x in rs ==> Matches(x, selectedProject, selectedProvider)
    ensures Where(rs, selectedProject, selectedProvider) == rs
  {
    if rs != [] {
      WhereKeepsMatching(rs[1..], selectedProject, selectedProvider);
      assert rs == [rs[0]] + rs[1..];
    }
  }

  /** Filtering an already filtered frame with the same selections changes nothing. */
  lemma FilterIdempotent(rs: seq<Record>, selectedProject: string, selectedProvider: string)
    ensures var once := FilterRecords(rs, selectedProject, selectedProvider);
            FilterRecords(once, selectedProject, selectedProvider) == once
  {
    var once := FilterRecords(rs, selectedProject, selectedProvider);
    FilterIsSinglePass(once, selectedProject, selectedProvider);
    WhereKeepsMatching(once, selectedProject, selectedProvider);
  }

  lemma {:induction false} KeepCommutes(rs: seq<Record>, c: Column, v: string, d: Column, w: string)
    ensures Keep(Keep(rs, c, v), d, w) == Keep(Keep(rs, d, w), c, v)
  {
    if rs != [] {
      KeepCommutes(rs[1..], c, v, d, w);
      var r := rs[0];
      var rc := Keep(rs[1..], c, v);
      var rd := Keep(rs[1..], d, w);
      assert ([r] + rc)[0] == r && ([r] + rc)[1..] == rc;
      assert ([r] + rd)[0] == r && ([r] + rd)[1..] == rd;
    }
  }

  /** Applying the provider selector before the project selector gives the same frame. */
  lemma SelectorsCommute(rs: seq<Record>, selectedProject: string, selectedProvider: string)
    ensures Select(Select(rs, CloudProvider, selectedProvider), Project, selectedProject)
         == FilterRecords(rs, selectedProject, selectedProvider)
  {
    if selectedProject != ALL && selectedProvider != ALL {
      KeepCommutes(rs, Project, selectedProject, CloudProvider, selectedProvider);
    }
  }
}
