/**
  Parsing `git status --porcelain=v1 -z`: NUL-terminated records, two of them for an
  entry that has been renamed or copied. A Go string is a sequence of bytes, so each
  character here stands for one byte.
 */
module Porcelain {
  import opened Wrappers

  const NUL: char := '\0'

  datatype Change = Change(path: string, status: string, previousPath: string)

  datatype ParseError = InvalidRecord | InvalidRename

  /** `strings.Split` on NUL. */
  function Split(s: string): (records: seq<string>)
    ensures records != []
  {
    if s == "" then [""]
    else
      var rest := Split(s[1..]);
      if s[0] == NUL then [""] + rest else [[s[0]] + rest[0]] + rest[1..]
  }

  predicate ContainsAny(s: string, c: char, d: char) {
    exists i :: 0 <= i < |s| && (s[i] == c || s[i] == d)
  }

  function NormalizeStatus(xy: string): string {
    if ContainsAny(xy, 'R', 'C') then "renamed"
    else if 'D' in xy then "deleted"
    else if xy == "??" then "untracked"
    else if 'A' in xy then "added"
    else "modified"
  }

  /** The status of a two-letter code: a rename or copy on either side wins, then a deletion, then an addition. */
  lemma StatusOfCode(x: char, y: char)
    ensures var s := NormalizeStatus([x, y]);
            && (s == "renamed" <==> x in {'R', 'C'} || y in {'R', 'C'})
            && (s == "deleted" <==> s != "renamed" && (x == 'D' || y == 'D'))
            && (s == "untracked" <==> x == '?' && y == '?')
            && (s == "added" <==> s != "renamed" && s != "deleted" && (x == 'A' || y == 'A'))
            && (s == "modified" <==>
                  x !in {'R', 'C', 'D', 'A'} && y !in {'R', 'C', 'D', 'A'} && !(x == '?' && y == '?'))
  {
    var xy := [x, y];
    assert xy[0] == x && xy[1] == y;
    assert xy == "??" <==> x == '?' && y == '?';
  }

  function Prepend(cs: seq<Change>, r: Result<seq<Change>, ParseError>): Result<seq<Change>, ParseError> {
    match r
    case Err(e) => Err(e)
    case Ok(more) => Ok(cs + more)
  }

  function Parse(records: seq<string>): Result<seq<Change>, ParseError>
    decreases |records|
  {
    if records == [] then Ok([])
    else if records[0] == "" then Parse(records[1..])
    else if |records[0]| < 4 then Err(InvalidRecord)
    else
      var path, status := records[0][3..], NormalizeStatus(records[0][..2]);
      if status != "renamed" then Prepend([Change(path, status, "")], Parse(records[1..]))
      else if |records| < 2 || records[1] == "" then Err(InvalidRename)
      else Prepend([Change(path, status, records[1])], Parse(records[2..]))
  }

  method ParseChanges(output: string) returns (r: Result<seq<Change>, ParseError>)
    ensures r == Parse(Split(output))
  {
    var records := Split(output);
    var changes: seq<Change> := [];
    var index := 0;
    PrependNil(Parse(records));
    assert records[0..] == records;
    while index < |records|
      invariant index <= |records|
      invariant Prepend(changes, Parse(records[index..])) == Parse(records)
    {
      var record := records[index];
      assert records[index..][0] == record && records[index..][1..] == records[index + 1..];
      if record == "" {
        index := index + 1;
        continue;
      }
      if |record| < 4 {
        return Err(InvalidRecord);
      }
      var change := Change(record[3..], NormalizeStatus(record[..2]), "");
      if change.status == "renamed" {
        if index + 1 >= |records| || records[index + 1] == "" {
          return Err(InvalidRename);
        }
        change := change.(previousPath := records[index + 1]);
        assert records[index..][2..] == records[index + 2..];
        index := index + 1;
      }
      PrependTwice(changes, [change], Parse(records[index + 1..]));
      changes := changes + [change];
      index := index + 1;
    }
    assert records[index..] == [] && changes + [] == changes;
    return Ok(changes);
  }

  lemma PrependNil(r: Result<seq<Change>, ParseError>)
    ensures Prepend([], r) == r
  {
    if r.Ok? {
      assert [] + r.value == r.value;
    }
  }

  lemma PrependTwice(xs: seq<Change>, ys: seq<Change>, r: Result<seq<Change>, ParseError>)
    ensures Prepend(xs, Prepend(ys, r)) == Prepend(xs + ys, r)
  {
    if r.Ok? {
      assert xs + (ys + r.value) == xs + ys + r.value;
    }
  }

  // ------------------------------------------------------- what git prints

  /** One entry of a status: `original` is the path before a rename or copy, or "". */
  datatype Entry = Entry(xy: string, path: string, original: string)

  predicate NulFree(s: string) {
    NUL !in s
  }

  ghost predicate Printable(e: Entry) {
    && |e.xy| == 2 && NulFree(e.xy) && e.path != "" && NulFree(e.path) && NulFree(e.original)
    && (e.original != "" <==> ContainsAny(e.xy, 'R', 'C'))
  }

  /** The -z form of one entry in git's "Porcelain Format Version 1". */
  function Print(e: Entry): string {
    e.xy + " " + e.path + [NUL] + if e.original != "" then e.original + [NUL] else ""
  }

  function PrintAll(entries: seq<Entry>): string {
    if entries == [] then "" else Print(entries[0]) + PrintAll(entries[1..])
  }

  function Expected(entries: seq<Entry>): seq<Change> {
    if entries == [] then []
    else [Change(entries[0].path, NormalizeStatus(entries[0].xy), entries[0].original)] + Expected(entries[1..])
  }

  lemma {:induction false} SplitRecord(record: string, rest: string)
    requires NulFree(record)
    ensures Split(record + [NUL] + rest) == [record] + Split(rest)
  {
    var s := record + [NUL] + rest;
    if record == "" {
      assert s[1..] == rest;
    } else {
      assert s[1..] == record[1..] + [NUL] + rest;
      assert NulFree(record[1..]);
      SplitRecord(record[1..], rest);
      assert [record[0]] + record[1..] == record;
      assert ([record[1..]] + Split(rest))[1..] == Split(rest);
    }
  }

  lemma SplitEntry(e: Entry, rest: string)
    requires Printable(e)
    ensures Split(Print(e) + rest) ==
            [e.xy + " " + e.path] + (if e.original != "" then [e.original] else []) + Split(rest)
  {
    var record := e.xy + " " + e.path;
    assert NulFree(record);
    if e.original != "" {
      assert Print(e) + rest == record + [NUL] + (e.original + [NUL] + rest);
      SplitRecord(record, e.original + [NUL] + rest);
      SplitRecord(e.original, rest);
    } else {
      assert Print(e) + rest == record + [NUL] + rest;
      SplitRecord(record, rest);
    }
  }

  /** Printing any entries and parsing the result gives back their paths, statuses and original paths. */
  lemma {:induction false} RoundTrip(entries: seq<Entry>)
    requires forall i :: 0 <= i < |entries| ==> Printable(entries[i])
    ensures Parse(Split(PrintAll(entries))) == Ok(Expected(entries))
  {
    if entries == [] {
      assert Split("")[1..] == [];
    } else {
      var e, rest := entries[0], PrintAll(entries[1..]);
      RoundTrip(entries[1..]);
      SplitEntry(e, rest);
      var record := e.xy + " " + e.path;
      var records := Split(PrintAll(entries));
      assert records[0] == record && record[3..] == e.path && record[..2] == e.xy;
      if e.original != "" {
        assert records[1] == e.original && records[2..] == Split(rest);
      } else {
        assert records[1..] == Split(rest);
      }
    }
  }

  // ------------------------------------------------ what a parse accounts for

  function NonEmpty(records: seq<string>): seq<string> {
    if records == [] then []
    else (if records[0] == "" then [] else [records[0]]) + NonEmpty(records[1..])
  }

  function Renames(changes: seq<Change>): nat {
    if changes == [] then 0 else (if changes[0].status == "renamed" then 1 else 0) + Renames(changes[1..])
  }

  /** The changes spell out the records one by one, and a rename takes the next record too. */
  ghost predicate Accounts(records: seq<string>, changes: seq<Change>)
    decreases |changes|
  {
    if changes == [] then records == []
    else
      var c := changes[0];
      && records != [] && |records[0]| >= 4
      && c.path == records[0][3..] && c.status == NormalizeStatus(records[0][..2])
      && (if c.status == "renamed"
          then |records| >= 2 && c.previousPath == records[1] && Accounts(records[2..], changes[1..])
          else c.previousPath == "" && Accounts(records[1..], changes[1..]))
  }

  /**
    Every successful parse accounts for all the non-empty records in order, so their
    number is the number of changes plus the number of renames.
   */
  lemma {:induction false} ParseAccounts(records: seq<string>)
    ensures Parse(records).Ok? ==>
              && Accounts(NonEmpty(records), Parse(records).value)
              && |NonEmpty(records)| == |Parse(records).value| + Renames(Parse(records).value)
    decreases |records|
  {
    if records != [] && Parse(records).Ok? {
      if records[0] == "" {
        ParseAccounts(records[1..]);
        assert NonEmpty(records) == NonEmpty(records[1..]);
      } else {
        var cs, some := Parse(records).value, NonEmpty(records);
        NonEmptyFirst(records);
        if NormalizeStatus(records[0][..2]) == "renamed" {
          NonEmptySecond(records);
          ParseAccounts(records[2..]);
          assert some[2..] == NonEmpty(records[2..]);
          assert cs == [cs[0]] + Parse(records[2..]).value;
          AccountsCons(some, cs[0], Parse(records[2..]).value);
        } else {
          ParseAccounts(records[1..]);
          assert some[1..] == NonEmpty(records[1..]);
          assert cs == [cs[0]] + Parse(records[1..]).value;
          AccountsCons(some, cs[0], Parse(records[1..]).value);
        }
      }
    }
  }

  lemma AccountsCons(records: seq<string>, c: Change, more: seq<Change>)
    requires records != [] && |records[0]| >= 4
    requires c.path == records[0][3..] && c.status == NormalizeStatus(records[0][..2])
    requires if c.status == "renamed" then
               |records| >= 2 && c.previousPath == records[1] && Accounts(records[2..], more)
             else c.previousPath == "" && Accounts(records[1..], more)
    ensures Accounts(records, [c] + more)
    ensures Renames([c] + more) == Renames(more) + if c.status == "renamed" then 1 else 0
  {
    assert ([c] + more)[1..] == more;
  }

  /** Where the first non-empty record is, or the length. */
  function FirstFull(records: seq<string>): (i: nat)
    ensures i <= |records| && (i < |records| ==> records[i] != "")
    ensures forall j :: 0 <= j < i ==> records[j] == ""
  {
    if records == [] || records[0] != "" then 0 else 1 + FirstFull(records[1..])
  }

  /** The two records of each rename stand next to each other, with no empty one in between. */
  ghost predicate Together(records: seq<string>, changes: seq<Change>)
    decreases |changes|
  {
    if changes == [] then true
    else
      var i := FirstFull(records);
      i < |records|
      && if changes[0].status == "renamed" then
           i + 1 < |records| && records[i + 1] != "" && Together(records[i + 2..], changes[1..])
         else Together(records[i + 1..], changes[1..])
  }

  lemma {:induction false} SkipsEmpty(records: seq<string>)
    ensures var rest := records[FirstFull(records)..];
            Parse(records) == Parse(rest) && NonEmpty(records) == NonEmpty(rest)
  {
    if records != [] && records[0] == "" {
      SkipsEmpty(records[1..]);
      assert records[1..][FirstFull(records[1..])..] == records[FirstFull(records)..];
    }
  }

  lemma TogetherSkips(records: seq<string>, changes: seq<Change>)
    ensures changes != [] ==> (Together(records, changes) <==> Together(records[FirstFull(records)..], changes))
  {
    var i := FirstFull(records);
    var rest := records[i..];
    assert rest == [] || rest[0] != "";
    if i < |records| {
      assert FirstFull(rest) == 0 && rest[1..] == records[i + 1..];
      if i + 1 < |records| {
        assert rest[2..] == records[i + 2..] && rest[1] == records[i + 1];
      }
    }
  }

  lemma NonEmptyFirst(records: seq<string>)
    requires records != [] && records[0] != ""
    ensures NonEmpty(records) == [records[0]] + NonEmpty(records[1..])
  {
  }

  lemma NonEmptySecond(records: seq<string>)
    requires |records| >= 2 && records[0] != "" && records[1] != ""
    ensures NonEmpty(records[1..]) == [records[1]] + NonEmpty(records[2..])
  {
    assert records[1..][1..] == records[2..];
    NonEmptyFirst(records[1..]);
  }

  /** The head of the parse: what the first non-empty record contributes. */
  lemma ParseFirstIff(records: seq<string>, c: Change, more: seq<Change>)
    requires records != [] && records[0] != ""
    ensures Parse(records) == Ok([c] + more) <==>
              && |records[0]| >= 4 && c.path == records[0][3..] && c.status == NormalizeStatus(records[0][..2])
              && if c.status == "renamed" then
                   |records| >= 2 && records[1] != "" && c.previousPath == records[1] && Parse(records[2..]) == Ok(more)
                 else c.previousPath == "" && Parse(records[1..]) == Ok(more)
  {
    assert forall d: Change, cs: seq<Change> :: [d] + cs == [c] + more ==> ([d] + cs)[0] == d && ([d] + cs)[1..] == cs;
    assert ([c] + more)[0] == c && ([c] + more)[1..] == more;
  }

  lemma AccountsFirstIff(records: seq<string>, c: Change, more: seq<Change>)
    requires records != [] && records[0] != ""
    ensures Accounts(NonEmpty(records), [c] + more) && Together(records, [c] + more) <==>
              && |records[0]| >= 4 && c.path == records[0][3..] && c.status == NormalizeStatus(records[0][..2])
              && if c.status == "renamed" then
                   && |records| >= 2 && records[1] != "" && c.previousPath == records[1]
                   && Accounts(NonEmpty(records[2..]), more) && Together(records[2..], more)
                 else
                   c.previousPath == "" && Accounts(NonEmpty(records[1..]), more) && Together(records[1..], more)
  {
    var all, some := [c] + more, NonEmpty(records);
    assert all[0] == c && all[1..] == more && FirstFull(records) == 0;
    NonEmptyFirst(records);
    assert some[0] == records[0] && some[1..] == NonEmpty(records[1..]);
    if |records| >= 2 && records[1] != "" {
      NonEmptySecond(records);
      assert some[1] == records[1] && some[2..] == NonEmpty(records[2..]);
    }
  }

  /**
    A parse of any records succeeds with given changes if and only if the changes account
    for the non-empty records and no rename is separated from its original path by an
    empty record.
   */
  lemma {:induction false} ParsesIff(records: seq<string>, changes: seq<Change>)
    ensures Parse(records) == Ok(changes) <==> Accounts(NonEmpty(records), changes) && Together(records, changes)
    decreases |records|, |changes|
  {
    var rest := records[FirstFull(records)..];
    SkipsEmpty(records);
    TogetherSkips(records, changes);
    if rest == [] || changes == [] {
      ParsesNothingIff(rest, changes);
    } else {
      var c, more := changes[0], changes[1..];
      assert changes == [c] + more;
      ParseFirstIff(rest, c, more);
      AccountsFirstIff(rest, c, more);
      ParsesIff(rest[1..], more);
      if |rest| >= 2 {
        ParsesIff(rest[2..], more);
      }
    }
  }

  lemma ParsesNothingIff(records: seq<string>, changes: seq<Change>)
    requires (records == [] || records[0] != "") && (records == [] || changes == [])
    ensures Parse(records) == Ok(changes) <==> Accounts(NonEmpty(records), changes) && Together(records, changes)
  {
    if records != [] {
      ParseAccounts(records);
    }
  }

  /**
    On records as git ends them, non-empty but for the last, a parse succeeds with given
    changes if and only if the changes account for the records.
   */
  lemma {:induction false} ParsesIffAccounts(records: seq<string>, changes: seq<Change>)
    requires forall i :: 0 <= i < |records| ==> records[i] != ""
    ensures Parse(records + [""]) == Ok(changes) <==> Accounts(records, changes)
    decreases |records|
  {
    var all := records + [""];
    ParseAccounts(all);
    NonEmptyEnded(records);
    if Accounts(records, changes) {
      if records == [] {
        assert all[1..] == [];
      } else if changes[0].status == "renamed" {
        assert all[2..] == records[2..] + [""];
        ParsesIffAccounts(records[2..], changes[1..]);
        assert [changes[0]] + changes[1..] == changes;
      } else {
        assert all[1..] == records[1..] + [""];
        ParsesIffAccounts(records[1..], changes[1..]);
        assert [changes[0]] + changes[1..] == changes;
      }
    }
  }

  lemma {:induction false} NonEmptyEnded(records: seq<string>)
    requires forall i :: 0 <= i < |records| ==> records[i] != ""
    ensures NonEmpty(records + [""]) == records
  {
    if records != [] {
      assert (records + [""])[1..] == records[1..] + [""];
      NonEmptyEnded(records[1..]);
    }
  }

  // ------------------------------------------------------ when a parse fails

  lemma {:induction false} ParseConcat(before: seq<string>, rest: seq<string>)
    requires Parse(before).Ok?
    ensures Parse(before + rest) == Prepend(Parse(before).value, Parse(rest))
    decreases |before|
  {
    var all := before + rest;
    if before == [] {
      assert all == rest;
      PrependNil(Parse(rest));
    } else if before[0] == "" {
      assert all[1..] == before[1..] + rest;
      ParseConcat(before[1..], rest);
    } else {
      var c := Parse(before).value[..1];
      var n := if c[0].status == "renamed" then 2 else 1;
      assert all[n..] == before[n..] + rest && all[0] == before[0];
      ParseConcat(before[n..], rest);
      PrependTwice(c, Parse(before[n..]).value, Parse(rest));
    }
  }

  /** Reading gets as far as record `n` and cannot go on: it is too short, or a rename without its original path. */
  ghost predicate StuckAt(records: seq<string>, n: nat, e: ParseError) {
    && n < |records| && Parse(records[..n]).Ok? && records[n] != ""
    && match e
       case InvalidRecord => |records[n]| < 4
       case InvalidRename =>
         && |records[n]| >= 4 && ContainsAny(records[n][..2], 'R', 'C')
         && (n + 1 == |records| || records[n + 1] == "")
  }

  lemma SticksLater(records: seq<string>, k: nat, m: nat, e: ParseError)
    requires k <= |records| && Parse(records[..k]).Ok? && StuckAt(records[k..], m, e)
    ensures StuckAt(records, m + k, e)
  {
    assert records[..m + k] == records[..k] + records[k..][..m];
    ParseConcat(records[..k], records[k..][..m]);
  }

  lemma {:induction false} Sticks(records: seq<string>) returns (n: nat)
    requires Parse(records).Err?
    ensures StuckAt(records, n, Parse(records).error)
    decreases |records|
  {
    if records[0] != "" && |records[0]| < 4 {
      n := 0;
    } else if records[0] != "" && NormalizeStatus(records[0][..2]) == "renamed" && (|records| < 2 || records[1] == "") {
      n := 0;
    } else {
      var k := if records[0] == "" || NormalizeStatus(records[0][..2]) != "renamed" then 1 else 2;
      var m := Sticks(records[k..]);
      n := m + k;
      assert records[..k][1..] == if k == 1 then [] else [records[1]];
      assert k == 2 ==> records[..k][2..] == [];
      SticksLater(records, k, m, Parse(records).error);
    }
  }

  /** A parse fails with an error if and only if some record stops it in that way; what comes before it parses. */
  lemma FailsIff(records: seq<string>, e: ParseError)
    ensures Parse(records) == Err(e) <==> exists n: nat :: StuckAt(records, n, e)
  {
    if Parse(records) == Err(e) {
      var n := Sticks(records);
    }
    forall n: nat | StuckAt(records, n, e)
      ensures Parse(records) == Err(e)
    {
      ParseConcat(records[..n], records[n..]);
      assert records == records[..n] + records[n..];
    }
  }
}
