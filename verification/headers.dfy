/** Header normalisation and column lookup, shared by every loader and by
    the file-kind classifier (cash_recon/parse.py). */
module Headers {
  import opened Wrappers
  import opened Text
  import opened Sheets

  /** `_to_str`: `""` for `None`, otherwise `str(value).strip()`. */
  function ToStr(v: CellValue): (r: string)
    ensures v.Blank? ==> r == ""
    ensures v.Str? ==> r == Strip(v.s)
    ensures v.Other? ==> r == Strip(v.rendered)
    ensures r == [] || (!IsSpace(r[0]) && !IsSpace(r[|r| - 1]))
  {
    match v
    case Blank => ""
    case Str(s) => Strip(s)
    case Other(t) => Strip(t)
  }

  /** A character that can survive header normalisation. */
  predicate NormalChar(c: char)
  {
    && c != ' ' && c != '\U{3000}' && c != '-' && c != '_'
    && c != '：' && c != '／'
    && !IsAsciiUpper(c)
  }

  /** The replacement chain of `_norm_header`, followed by `lower()`. */
  function Canonical(s: string): string
  {
    var s1 := ReplaceChar(s, '\U{3000}', " ");
    var s2 := ReplaceChar(s1, ' ', "");
    var s3 := ReplaceChar(s2, '：', ":");
    var s4 := ReplaceChar(s3, '／', "/");
    var s5 := ReplaceChar(s4, '-', "");
    var s6 := ReplaceChar(s5, '_', "");
    Lower(s6)
  }

  /** What normalisation makes of one character, stated on its own. */
  function NormChar(c: char): (r: string)
    ensures forall x :: x in r ==> NormalChar(x)
  {
    if c == ' ' || c == '\U{3000}' || c == '-' || c == '_' then ""
    else if c == '：' then ":"
    else if c == '／' then "/"
    else [LowerChar(c)]
  }

  /** Character-by-character normalisation: the reference for the
      replacement chain. */
  function NormChars(s: string): (r: string)
    ensures forall x :: x in r ==> NormalChar(x)
  {
    if |s| == 0 then "" else NormChar(s[0]) + NormChars(s[1..])
  }

  lemma ReplaceCharShort(s: string, c: char, t: string)
    requires |s| <= 1
    ensures ReplaceChar(s, c, t) == if |s| == 0 then "" else if s[0] == c then t else s
  {
    if |s| == 1 {
      assert s[1..] == "";
    }
  }

  lemma CanonicalOfChar(c: char)
    ensures Canonical([c]) == NormChar(c)
  {
    var s1 := ReplaceChar([c], '\U{3000}', " ");
    ReplaceCharShort([c], '\U{3000}', " ");
    var s2 := ReplaceChar(s1, ' ', "");
    ReplaceCharShort(s1, ' ', "");
    var s3 := ReplaceChar(s2, '：', ":");
    ReplaceCharShort(s2, '：', ":");
    var s4 := ReplaceChar(s3, '／', "/");
    ReplaceCharShort(s3, '／', "/");
    var s5 := ReplaceChar(s4, '-', "");
    ReplaceCharShort(s4, '-', "");
    var s6 := ReplaceChar(s5, '_', "");
    ReplaceCharShort(s5, '_', "");
  }

  lemma CanonicalAppend(a: string, b: string)
    ensures Canonical(a + b) == Canonical(a) + Canonical(b)
  {
    var a1 := ReplaceChar(a, '\U{3000}', " ");
    var b1 := ReplaceChar(b, '\U{3000}', " ");
    ReplaceCharAppend(a, b, '\U{3000}', " ");
    var a2 := ReplaceChar(a1, ' ', "");
    var b2 := ReplaceChar(b1, ' ', "");
    ReplaceCharAppend(a1, b1, ' ', "");
    var a3 := ReplaceChar(a2, '：', ":");
    var b3 := ReplaceChar(b2, '：', ":");
    ReplaceCharAppend(a2, b2, '：', ":");
    var a4 := ReplaceChar(a3, '／', "/");
    var b4 := ReplaceChar(b3, '／', "/");
    ReplaceCharAppend(a3, b3, '／', "/");
    var a5 := ReplaceChar(a4, '-', "");
    var b5 := ReplaceChar(b4, '-', "");
    ReplaceCharAppend(a4, b4, '-', "");
    var a6 := ReplaceChar(a5, '_', "");
    var b6 := ReplaceChar(b5, '_', "");
    ReplaceCharAppend(a5, b5, '_', "");
    LowerAppend(a6, b6);
  }

  /** The replacement chain is a character-by-character map. */
  lemma {:induction false} CanonicalIsPerChar(s: string)
    ensures Canonical(s) == NormChars(s)
    decreases |s|
  {
    if |s| == 0 {
      assert Canonical(s) == "";
    } else {
      assert s == [s[0]] + s[1..];
      CanonicalAppend([s[0]], s[1..]);
      CanonicalOfChar(s[0]);
      CanonicalIsPerChar(s[1..]);
    }
  }

  /** `_norm_header`: blank stays blank; otherwise spaces (ASCII and
      ideographic), `-` and `_` are dropped, full-width `：` and `／` become
      `:` and `/`, and letters are lower-cased. */
  function NormHeader(v: CellValue): (r: string)
    ensures r == NormChars(ToStr(v))
    ensures forall c :: c in r ==> NormalChar(c)
  {
    var s := ToStr(v);
    CanonicalIsPerChar(s);
    if s == "" then "" else Canonical(s)
  }

  /** The normalised key of a header name given as a literal. */
  function Key(name: string): string
  {
    NormHeader(Str(name))
  }

  /** The normalised names of a header row, column by column. */
  function HeaderKeys(header: seq<CellValue>): (keys: seq<string>)
    ensures |keys| == |header|
    ensures forall i :: 0 <= i < |header| ==> keys[i] == NormHeader(header[i])
  {
    seq(|header|, i requires 0 <= i < |header| => NormHeader(header[i]))
  }

  /** Column `c` (1-based) holds the first occurrence of `k` in `keys`. */
  ghost predicate FirstAt(keys: seq<string>, k: string, c: int)
  {
    && 1 <= c <= |keys|
    && keys[c - 1] == k
    && forall j :: 0 <= j < c - 1 ==> keys[j] != k
  }

  /** The loop of `_build_index` over already-normalised names. */
  function IndexKeys(keys: seq<string>): map<string, int>
    decreases |keys|
  {
    if |keys| == 0 then map[]
    else
      var idx := IndexKeys(keys[..|keys| - 1]);
      var key := keys[|keys| - 1];
      if key == "" || key in idx then idx else idx[key := |keys|]
  }

  /** The index holds exactly the non-empty names, each at its first column. */
  lemma {:induction false} IndexKeysFirstOccurrence(keys: seq<string>)
    ensures forall k :: k in IndexKeys(keys) ==> k != "" && FirstAt(keys, k, IndexKeys(keys)[k])
    ensures forall i :: 0 <= i < |keys| && keys[i] != "" ==> keys[i] in IndexKeys(keys)
    decreases |keys|
  {
    if |keys| > 0 {
      var n := |keys|;
      var pre := keys[..n - 1];
      IndexKeysFirstOccurrence(pre);
      var idx := IndexKeys(pre);
      var key := keys[n - 1];
      forall k | k in IndexKeys(keys)
        ensures k != "" && FirstAt(keys, k, IndexKeys(keys)[k])
      {
        if k in idx {
          assert FirstAt(pre, k, idx[k]);
          assert IndexKeys(keys)[k] == idx[k];
        } else {
          assert k == key && IndexKeys(keys)[k] == n;
          forall j | 0 <= j < n - 1 ensures keys[j] != k {
            assert keys[j] == pre[j];
          }
        }
      }
      forall i | 0 <= i < n && keys[i] != "" ensures keys[i] in IndexKeys(keys) {
        if i < n - 1 {
          assert keys[i] == pre[i];
        }
      }
    }
  }

  /** `_build_index`: each non-empty normalised header name maps to the
      1-based column of its FIRST occurrence; blanks and later duplicates
      are ignored. */
  function BuildIndex(header: seq<CellValue>): (idx: map<string, int>)
    ensures forall k :: k in idx ==> k != "" && FirstAt(HeaderKeys(header), k, idx[k])
    ensures forall i :: 0 <= i < |header| && NormHeader(header[i]) != "" ==> NormHeader(header[i]) in idx
  {
    IndexKeysFirstOccurrence(HeaderKeys(header));
    IndexKeys(HeaderKeys(header))
  }

  /** The loop of `_find_first` over already-normalised candidates. */
  function FindFirstKey(idx: map<string, int>, keys: seq<string>): (r: Option<int>)
    ensures r.None? <==> forall j :: 0 <= j < |keys| ==> keys[j] !in idx
    ensures r.Some? ==>
              exists j :: && 0 <= j < |keys|
                          && keys[j] in idx
                          && r.value == idx[keys[j]]
                          && forall i :: 0 <= i < j ==> keys[i] !in idx
  {
    if |keys| == 0 then None
    else if keys[0] in idx then Some(idx[keys[0]])
    else
      var r := FindFirstKey(idx, keys[1..]);
      assert forall j :: 1 <= j < |keys| ==> keys[j] == keys[1..][j - 1];
      r
  }

  /** The normalised candidate names, in candidate order. */
  function CandidateKeys(candidates: seq<string>): (keys: seq<string>)
    ensures |keys| == |candidates|
    ensures forall i :: 0 <= i < |candidates| ==> keys[i] == Key(candidates[i])
  {
    seq(|candidates|, i requires 0 <= i < |candidates| => Key(candidates[i]))
  }

  /** `_find_first`: the column of the first candidate, in candidate order,
      whose normalised name is in the index; `None` when none is. */
  function FindFirst(idx: map<string, int>, candidates: seq<string>): (r: Option<int>)
    ensures r.None? <==> forall j :: 0 <= j < |candidates| ==> CandidateKeys(candidates)[j] !in idx
    ensures r.Some? ==>
              exists j :: && 0 <= j < |candidates|
                          && CandidateKeys(candidates)[j] in idx
                          && r.value == idx[CandidateKeys(candidates)[j]]
                          && forall i :: 0 <= i < j ==> CandidateKeys(candidates)[i] !in idx
  {
    FindFirstKey(idx, CandidateKeys(candidates))
  }

  /** Some name in `keys` is one of the non-blank `wanted` names. */
  ghost predicate HasKey(keys: seq<string>, wanted: seq<string>)
    decreases |keys|
  {
    |keys| > 0 && ((keys[0] != "" && keys[0] in wanted) || HasKey(keys[1..], wanted))
  }

  /** `HasKey` names a position in each list. */
  lemma {:induction false} HasKeyWitness(keys: seq<string>, wanted: seq<string>)
    ensures HasKey(keys, wanted) <==>
              exists i, j :: 0 <= i < |keys| && 0 <= j < |wanted| && wanted[j] != "" && keys[i] == wanted[j]
    decreases |keys|
  {
    if |keys| > 0 {
      HasKeyWitness(keys[1..], wanted);
      if exists i, j :: 0 <= i < |keys| && 0 <= j < |wanted| && wanted[j] != "" && keys[i] == wanted[j] {
        var i, j :| 0 <= i < |keys| && 0 <= j < |wanted| && wanted[j] != "" && keys[i] == wanted[j];
        if i > 0 {
          assert keys[1..][i - 1] == wanted[j];
        }
      }
    }
  }

  /** The key-level core of `FindFirstInHeader`. */
  lemma FindFirstKeyInKeys(keys: seq<string>, wanted: seq<string>)
    ensures FindFirstKey(IndexKeys(keys), wanted).Some? <==> HasKey(keys, wanted)
    ensures FindFirstKey(IndexKeys(keys), wanted).Some? ==>
              var c := FindFirstKey(IndexKeys(keys), wanted).value;
              1 <= c <= |keys| && keys[c - 1] in wanted
  {
    var idx := IndexKeys(keys);
    IndexKeysFirstOccurrence(keys);
    HasKeyWitness(keys, wanted);
    if HasKey(keys, wanted) {
      var i, j :| 0 <= i < |keys| && 0 <= j < |wanted| && wanted[j] != "" && keys[i] == wanted[j];
      assert wanted[j] in idx;
    }
    var r := FindFirstKey(idx, wanted);
    if r.Some? {
      var j :| 0 <= j < |wanted| && wanted[j] in idx && r.value == idx[wanted[j]];
      assert FirstAt(keys, wanted[j], r.value);
    }
  }

  /** Some column of the header carries the normalised name of one of the
      candidates (blank names never count). */
  ghost predicate HasColumn(header: seq<CellValue>, candidates: seq<string>)
  {
    HasKey(HeaderKeys(header), CandidateKeys(candidates))
  }

  /** Looking a candidate list up in the index of a header finds a column
      exactly when the header has one of the candidates, and the column found
      carries one of the candidate names. */
  lemma FindFirstInHeader(header: seq<CellValue>, candidates: seq<string>)
    ensures FindFirst(BuildIndex(header), candidates).Some? <==> HasColumn(header, candidates)
    ensures FindFirst(BuildIndex(header), candidates).Some? ==>
              var c := FindFirst(BuildIndex(header), candidates).value;
              1 <= c <= |header| && HeaderKeys(header)[c - 1] in CandidateKeys(candidates)
  {
    LookupIsKeyLookup(header, candidates);
    FindFirstKeyInKeys(HeaderKeys(header), CandidateKeys(candidates));
  }

  /** Some cell of the header normalises to the non-blank name of one of
      the candidates. */
  ghost predicate NamesOne(header: seq<CellValue>, candidates: seq<string>)
  {
    exists c, j :: && 0 <= c < |header| && 0 <= j < |candidates|
                   && Key(candidates[j]) != "" && NormHeader(header[c]) == Key(candidates[j])
  }

  /** `HasColumn` is that cell-by-cell reading. */
  lemma HasColumnNamesOne(header: seq<CellValue>, candidates: seq<string>)
    ensures HasColumn(header, candidates) <==> NamesOne(header, candidates)
  {
    var keys := HeaderKeys(header);
    var wanted := CandidateKeys(candidates);
    HasKeyWitness(keys, wanted);
    if NamesOne(header, candidates) {
      var c, j :| && 0 <= c < |header| && 0 <= j < |candidates|
                  && Key(candidates[j]) != "" && NormHeader(header[c]) == Key(candidates[j]);
      assert keys[c] == wanted[j];
    }
    if HasColumn(header, candidates) {
      var i, j :| 0 <= i < |keys| && 0 <= j < |wanted| && wanted[j] != "" && keys[i] == wanted[j];
      assert NormHeader(header[i]) == Key(candidates[j]);
    }
  }

  /** The header-level lookup is the key-level one on the normalised names. */
  lemma LookupIsKeyLookup(header: seq<CellValue>, candidates: seq<string>)
    ensures FindFirst(BuildIndex(header), candidates)
         == FindFirstKey(IndexKeys(HeaderKeys(header)), CandidateKeys(candidates))
  {
  }

  /** Column `c` (1-based) of the header carries one of the candidate names. */
  ghost predicate ColumnMatches(header: seq<CellValue>, candidates: seq<string>, c: int)
  {
    1 <= c <= |header| && HeaderKeys(header)[c - 1] in CandidateKeys(candidates)
  }

  /** `_find_first(_build_index(header), candidates)`: the column a loader
      resolves for one field. */
  function Column(header: seq<CellValue>, candidates: seq<string>): (r: Option<int>)
    ensures r.Some? <==> HasColumn(header, candidates)
    ensures r.Some? ==> ColumnMatches(header, candidates, r.value)
  {
    FindFirstInHeader(header, candidates);
    FindFirst(BuildIndex(header), candidates)
  }

  /** Number of columns whose normalised name is `key`. */
  function CountKey(keys: seq<string>, key: string): nat
    decreases |keys|
  {
    if |keys| == 0 then 0
    else CountKey(keys[..|keys| - 1], key) + (if keys[|keys| - 1] == key then 1 else 0)
  }

  lemma {:induction false} CountKeyPrefix(keys: seq<string>, key: string, n: nat)
    requires n <= |keys|
    ensures CountKey(keys[..n], key) <= CountKey(keys, key)
    decreases |keys|
  {
    if n < |keys| {
      assert keys[..|keys| - 1][..n] == keys[..n];
      CountKeyPrefix(keys[..|keys| - 1], key, n);
    } else {
      assert keys[..n] == keys;
    }
  }

  /** The scan loop of the order-code search from column `i + 1` on, having
      seen `seen` matching columns so far. */
  function ScanSecond(keys: seq<string>, key: string, i: nat, seen: nat): (r: Option<int>)
    requires i <= |keys| && seen < 2
    requires seen == CountKey(keys[..i], key)
    ensures r.None? <==> CountKey(keys, key) < 2
    ensures r.Some? ==> && i < r.value <= |keys|
                        && keys[r.value - 1] == key
                        && CountKey(keys[..r.value - 1], key) == 1
    decreases |keys| - i
  {
    if i == |keys| then
      assert keys[..i] == keys;
      None
    else
      assert keys[..i + 1][..i] == keys[..i];
      if keys[i] == key then
        if seen + 1 == 2 then
          CountKeyPrefix(keys, key, i + 1);
          Some(i + 1)
        else ScanSecond(keys, key, i + 1, seen + 1)
      else ScanSecond(keys, key, i + 1, seen)
  }

  /** The order-code column search: the SECOND column whose normalised
      header is the normalised `name` (the source searches for `訂單編號`);
      `None` when there are fewer than two. */
  function OrderCodeColumn(header: seq<CellValue>, name: string): (r: Option<int>)
    ensures r.None? <==> CountKey(HeaderKeys(header), Key(name)) < 2
    ensures r.Some? ==> && 1 <= r.value <= |header|
                        && NormHeader(header[r.value - 1]) == Key(name)
                        && CountKey(HeaderKeys(header)[..r.value - 1], Key(name)) == 1
  {
    var keys := HeaderKeys(header);
    assert keys[..0] == [];
    ScanSecond(keys, Key(name), 0, 0)
  }

  /** `[name for name, col in missing_cols if col is None]`: the required
      column names whose lookup failed, in declared order. */
  function MissingColumns(required: seq<(string, Option<int>)>): (names: seq<string>)
    ensures |names| <= |required|
    ensures forall n :: n in names <==> exists i :: 0 <= i < |required| && required[i].0 == n && required[i].1.None?
    ensures names == [] <==> forall i :: 0 <= i < |required| ==> required[i].1.Some?
  {
    UnresolvedFacts(required);
    Unresolved(required)
  }

  /** The list comprehension itself, in group order. */
  function Unresolved(required: seq<(string, Option<int>)>): seq<string>
  {
    if |required| == 0 then []
    else (if required[0].1.None? then [required[0].0] else []) + Unresolved(required[1..])
  }

  lemma {:induction false} UnresolvedFacts(required: seq<(string, Option<int>)>)
    ensures |Unresolved(required)| <= |required|
    ensures forall n :: n in Unresolved(required) <==>
              exists i :: 0 <= i < |required| && required[i].0 == n && required[i].1.None?
    ensures Unresolved(required) == [] <==> forall i :: 0 <= i < |required| ==> required[i].1.Some?
  {
    if |required| > 0 {
      UnresolvedFacts(required[1..]);
      assert forall i :: 1 <= i < |required| ==> required[i] == required[1..][i - 1];
    }
  }

  /** Missing-column lists of consecutive groups of required columns are
      reported one after the other: the list keeps the declared order. */
  lemma MissingColumnsAppend(a: seq<(string, Option<int>)>, b: seq<(string, Option<int>)>)
    ensures MissingColumns(a + b) == MissingColumns(a) + MissingColumns(b)
  {
    UnresolvedAppend(a, b);
  }

  lemma {:induction false} UnresolvedAppend(a: seq<(string, Option<int>)>, b: seq<(string, Option<int>)>)
    ensures Unresolved(a + b) == Unresolved(a) + Unresolved(b)
    decreases |a|
  {
    if |a| == 0 {
      assert a + b == b;
    } else {
      assert (a + b)[1..] == a[1..] + b;
      UnresolvedAppend(a[1..], b);
    }
  }
}
