/** The ADIF record scanner of the main process (`parseADIF`, src/main/main.js).

    The scanner runs the global regular expression `<([^>:]+)[^>]*>[\s]*([^<]*)`
    over the text. Its name group stops at the first ':' or '>', so a tag
    `<CALL:6>` yields the name `CALL` and the `:6` length is never seen: every
    value is the trimmed text up to the next '<', whatever length the tag
    declares. This departs from the "ADI File Format" section of the ADIF 3
    specification, where the length decides how many characters belong to the
    value. */
module Adif {
  import opened Strings
  import opened Values

  /** One match of the tag pattern: where it starts, the name group as written,
      the text between the closing '>' and the next '<', and where the match ends. */
  datatype TagMatch = TagMatch(start: nat, name: string, text: string, end: nat)

  /** First index at or after `from` holding a character of `cs`, or `|s|`. */
  function IndexOfAny(s: string, from: nat, cs: set<char>): (r: nat)
    requires from <= |s|
    ensures from <= r <= |s|
    ensures forall k :: from <= k < r ==> s[k] !in cs
    ensures r < |s| ==> s[r] in cs
    decreases |s| - from
  {
    if from == |s| || s[from] in cs then from else IndexOfAny(s, from + 1, cs)
  }

  /** The match of the tag pattern anchored at index `i`, if there is one. */
  function MatchAt(s: string, i: nat): (r: Option<TagMatch>)
    requires i <= |s|
    ensures r.Some? ==> r.value.start == i && i < r.value.end <= |s|
    ensures r.Some? ==> r.value.name != [] && ':' !in r.value.name && '>' !in r.value.name
    ensures r.Some? ==> '<' !in r.value.text
    ensures r.Some? ==> s[i] == '<'
  {
    if i + 1 < |s| && s[i] == '<' && s[i + 1] != '>' && s[i + 1] != ':' then
      var close := IndexOfAny(s, i + 1, {'>'});
      if close == |s| then None
      else
        var nameEnd := IndexOfAny(s, i + 1, {'>', ':'});
        var next := IndexOfAny(s, close + 1, {'<'});
        assert forall k :: i + 1 <= k < nameEnd ==> s[k] != ':' && s[k] != '>';
        Some(TagMatch(i, s[i + 1..nameEnd], s[close + 1..next], next))
    else
      None
  }

  /** `tagPattern.exec` with `lastIndex == from`: the first match starting at or after `from`. */
  function NextMatch(s: string, from: nat): (r: Option<TagMatch>)
    requires from <= |s|
    ensures r.Some? ==> from <= r.value.start < r.value.end <= |s| && MatchAt(s, r.value.start) == r
    ensures forall i :: from <= i <= |s| && (r.None? || i < r.value.start) ==> MatchAt(s, i).None?
    decreases |s| - from
  {
    if MatchAt(s, from).Some? then MatchAt(s, from)
    else if from == |s| then None
    else NextMatch(s, from + 1)
  }

  /** Every match the global pattern produces from `from` on, in order. */
  function MatchesFrom(s: string, from: nat): (ms: seq<TagMatch>)
    requires from <= |s|
    ensures forall i :: 0 <= i < |ms| ==> from <= ms[i].start < ms[i].end <= |s|
    ensures forall i :: 0 <= i < |ms| - 1 ==> ms[i].end <= ms[i + 1].start
    decreases |s| - from
  {
    match NextMatch(s, from)
    case None => []
    case Some(m) => [m] + MatchesFrom(s, m.end)
  }

  /** Each match in the sequence is the pattern's match at its own start, and
      the sequence is empty only when no tag matches anywhere from `from` on. */
  lemma {:induction false} MatchesAreMatches(s: string, from: nat)
    requires from <= |s|
    ensures forall i :: 0 <= i < |MatchesFrom(s, from)| ==>
              MatchAt(s, MatchesFrom(s, from)[i].start) == Some(MatchesFrom(s, from)[i])
    ensures MatchesFrom(s, from) == [] ==> forall i :: from <= i <= |s| ==> MatchAt(s, i).None?
    decreases |s| - from
  {
    match NextMatch(s, from)
    case None =>
    case Some(m) =>
      MatchesAreMatches(s, m.end);
      var rest := MatchesFrom(s, m.end);
      assert MatchesFrom(s, from) == [m] + rest;
  }

  /** The key a match is stored under. */
  function KeyOf(m: TagMatch): string {
    Upper(m.name)
  }

  /** The value a match stores. */
  function ValueOf(m: TagMatch): string {
    Trim(m.text)
  }

  predicate IsTerminator(m: TagMatch) {
    KeyOf(m) == "EOR" || KeyOf(m) == "EOH"
  }

  /** Stores the matches into `acc` one after another, stopping at the first terminator. */
  function Collect(acc: map<string, string>, ms: seq<TagMatch>): (r: map<string, string>)
    ensures acc.Keys <= r.Keys
    ensures ms != [] && !IsTerminator(ms[0]) ==> KeyOf(ms[0]) in r
    ensures ms == [] || IsTerminator(ms[0]) ==> r == acc
    decreases |ms|
  {
    if ms == [] || IsTerminator(ms[0]) then acc
    else Collect(acc[KeyOf(ms[0]) := ValueOf(ms[0])], ms[1..])
  }

  /** The record `parseADIF(s)` returns. */
  function Parse(s: string): (r: map<string, string>)
    ensures KeysAndValuesClean(r)
  {
    MatchesWellFormed(s, 0);
    CollectClean(map[], MatchesFrom(s, 0));
    Collect(map[], MatchesFrom(s, 0))
  }

  /** `parseADIF`: a loop over the matches of the tag pattern that fills `result`. */
  method ParseAdif(s: string) returns (result: map<string, string>)
    ensures result == Parse(s)
  {
    result := map[];
    var lastIndex := 0;
    while true
      invariant lastIndex <= |s|
      invariant Collect(result, MatchesFrom(s, lastIndex)) == Parse(s)
      decreases |s| - lastIndex
    {
      var found := NextMatch(s, lastIndex);
      if found.None? {
        break;
      }
      var m := found.value;
      assert MatchesFrom(s, lastIndex) == [m] + MatchesFrom(s, m.end);
      var tagName := Upper(m.name);
      var tagValue := Trim(m.text);
      if tagName == "EOR" || tagName == "EOH" {
        break;
      }
      if ':' in tagName {
        // The length-suffix branch of the source: the name group never holds ':'.
        assert false;
      }
      result := result[tagName := tagValue];
      lastIndex := m.end;
    }
  }

  // ---------------------------------------------------------------------------
  // Properties of the parsed record

  /** Index of the first terminator in `ms`, or `|ms|`. */
  function Stop(ms: seq<TagMatch>): (n: nat)
    ensures n <= |ms|
    ensures forall i :: 0 <= i < n ==> !IsTerminator(ms[i])
    ensures n < |ms| ==> IsTerminator(ms[n])
  {
    if ms == [] || IsTerminator(ms[0]) then 0 else 1 + Stop(ms[1..])
  }

  /** Every match the pattern produces starts with '<' and is well formed. */
  predicate WellFormed(ms: seq<TagMatch>) {
    forall i :: 0 <= i < |ms| ==>
      ms[i].name != [] && ':' !in ms[i].name && '<' !in ms[i].text
  }

  lemma {:induction false} MatchesWellFormed(s: string, from: nat)
    requires from <= |s|
    ensures WellFormed(MatchesFrom(s, from))
    decreases |s| - from
  {
    match NextMatch(s, from)
    case None =>
    case Some(m) =>
      MatchesWellFormed(s, m.end);
  }

  predicate KeysAndValuesClean(r: map<string, string>) {
    forall k :: k in r ==>
      k != [] && ':' !in k && NoLowerAscii(k) && '<' !in r[k] && Trimmed(r[k])
  }

  lemma UpperHasNoColon(name: string)
    requires ':' !in name
    ensures ':' !in Upper(name) && NoLowerAscii(Upper(name))
  {
    forall i | 0 <= i < |name| ensures Upper(name)[i] != ':' {
      assert name[i] != ':';
    }
  }

  lemma TrimHasNoLt(t: string)
    requires '<' !in t
    ensures '<' !in Trim(t) && Trimmed(Trim(t))
  {
    var i, j :| 0 <= i <= j <= |t| && Trim(t) == t[i..j];
    forall k | 0 <= k < |Trim(t)| ensures Trim(t)[k] != '<' {
      assert Trim(t)[k] == t[i + k];
    }
  }

  lemma {:induction false} CollectClean(acc: map<string, string>, ms: seq<TagMatch>)
    requires KeysAndValuesClean(acc) && WellFormed(ms)
    ensures KeysAndValuesClean(Collect(acc, ms))
    decreases |ms|
  {
    if ms != [] && !IsTerminator(ms[0]) {
      UpperHasNoColon(ms[0].name);
      TrimHasNoLt(ms[0].text);
      assert WellFormed(ms[1..]) by {
        forall i | 0 <= i < |ms[1..]| ensures ms[1..][i] == ms[i + 1] { }
      }
      CollectClean(acc[KeyOf(ms[0]) := ValueOf(ms[0])], ms[1..]);
    }
  }

  /** Every key of a parsed record is a non-empty upper-case name without ':';
      every value is trimmed and holds no '<'. */
  lemma ParseClean(s: string)
    ensures KeysAndValuesClean(Parse(s))
  {
    MatchesWellFormed(s, 0);
    CollectClean(map[], MatchesFrom(s, 0));
  }

  /** Matches after the first terminator never reach the record. */
  lemma {:induction false} CollectStopsAtTerminator(acc: map<string, string>, ms: seq<TagMatch>, rest: seq<TagMatch>)
    requires Stop(ms) < |ms|
    ensures Collect(acc, ms + rest) == Collect(acc, ms) == Collect(acc, ms[..Stop(ms)])
    decreases |ms|
  {
    if IsTerminator(ms[0]) {
      assert (ms + rest)[0] == ms[0];
    } else {
      assert (ms + rest)[1..] == ms[1..] + rest;
      assert ms[..Stop(ms)][1..] == ms[1..][..Stop(ms[1..])];
      CollectStopsAtTerminator(acc[KeyOf(ms[0]) := ValueOf(ms[0])], ms[1..], rest);
    }
  }

  /** Index of the last match before `n` stored under `k`, or -1. */
  function LastWith(ms: seq<TagMatch>, n: nat, k: string): (r: int)
    requires n <= |ms|
    ensures -1 <= r < n
    ensures r >= 0 ==> KeyOf(ms[r]) == k
    ensures forall i :: r < i < n ==> KeyOf(ms[i]) != k
  {
    if n == 0 then -1
    else if KeyOf(ms[n - 1]) == k then n - 1
    else LastWith(ms, n - 1, k)
  }

  lemma {:induction false} LastWithShift(ms: seq<TagMatch>, n: nat, k: string)
    requires 1 <= n <= |ms|
    ensures LastWith(ms, n, k) == if LastWith(ms[1..], n - 1, k) >= 0 then LastWith(ms[1..], n - 1, k) + 1
                                  else if KeyOf(ms[0]) == k then 0 else -1
  {
    if n > 1 && KeyOf(ms[n - 1]) != k {
      LastWithShift(ms, n - 1, k);
    }
  }

  /** A key is in the record exactly when some match before the first
      terminator carries it, and then the LAST such match gives its value:
      a repeated tag overwrites the earlier one. */
  lemma {:induction false} CollectLastWins(acc: map<string, string>, ms: seq<TagMatch>, k: string)
    ensures k in Collect(acc, ms) <==> (k in acc || LastWith(ms, Stop(ms), k) >= 0)
    ensures LastWith(ms, Stop(ms), k) >= 0 ==>
              k in Collect(acc, ms) && Collect(acc, ms)[k] == ValueOf(ms[LastWith(ms, Stop(ms), k)])
    ensures LastWith(ms, Stop(ms), k) < 0 && k in acc ==> Collect(acc, ms)[k] == acc[k]
    decreases |ms|
  {
    if ms != [] && !IsTerminator(ms[0]) {
      LastWithShift(ms, Stop(ms), k);
      CollectLastWins(acc[KeyOf(ms[0]) := ValueOf(ms[0])], ms[1..], k);
    }
  }

  /** Text without any '<' holds no tag and parses to the empty record. */
  lemma NoTagsEmpty(s: string)
    requires '<' !in s
    ensures Parse(s) == map[]
  {
    forall i | 0 <= i <= |s| ensures MatchAt(s, i).None? {
      assert i < |s| ==> s[i] != '<';
    }
  }

  // ---------------------------------------------------------------------------
  // Records written as ADI fields

  /** One data specifier `<NAME:LEN>VALUE` as a logging program writes it. */
  datatype Field = Field(name: string, len: string, value: string)

  function Render(f: Field): string {
    "<" + f.name + ":" + f.len + ">" + f.value
  }

  function RenderAll(fs: seq<Field>): string {
    if fs == [] then "" else Render(fs[0]) + RenderAll(fs[1..])
  }

  /** A field the scanner can read: a name without ':' or '>', a length
      without '>', a value without '<', and a name that is not a terminator. */
  predicate Readable(f: Field) {
    f.name != [] && ':' !in f.name && '>' !in f.name && '>' !in f.len && '<' !in f.value
    && Upper(f.name) != "EOR" && Upper(f.name) != "EOH"
  }

  /** What the scanner stores for a record of fields: each upper-cased name
      with its trimmed value, later fields overwriting earlier ones. */
  function StoreFields(acc: map<string, string>, fs: seq<Field>): map<string, string>
    decreases |fs|
  {
    if fs == [] then acc else StoreFields(acc[Upper(fs[0].name) := Trim(fs[0].value)], fs[1..])
  }

  lemma IndexOfAnyIs(s: string, from: nat, cs: set<char>, r: nat)
    requires from <= r <= |s|
    requires forall k :: from <= k < r ==> s[k] !in cs
    requires r < |s| ==> s[r] in cs
    ensures IndexOfAny(s, from, cs) == r
  {
  }

  lemma CharsOfSlice(s: string, a: nat, b: nat, t: string, c: char)
    requires a <= b <= |s| && s[a..b] == t && c !in t
    ensures forall k :: a <= k < b ==> s[k] != c
  {
    forall k | a <= k < b ensures s[k] != c {
      assert s[k] == t[k - a];
    }
  }

  /** Where the parts of a field sit in its rendering. */
  lemma RenderLayout(f: Field)
    ensures var r, n, l := Render(f), |f.name|, |f.len|;
            && |r| == 3 + n + l + |f.value|
            && r[0] == '<' && r[1 + n] == ':' && r[2 + n + l] == '>'
            && r[1..1 + n] == f.name && r[2 + n..2 + n + l] == f.len && r[3 + n + l..] == f.value
  {
    var r := Render(f);
    assert r == ("<" + f.name) + (":" + f.len) + (">" + f.value);
  }

  /** Where the parts of a rendered field sit inside the text that holds it. */
  lemma FieldLayout(s: string, i: nat, f: Field)
    requires i + |Render(f)| <= |s| && s[i..i + |Render(f)|] == Render(f)
    ensures var nameEnd := i + 1 + |f.name|;
            var close := nameEnd + 1 + |f.len|;
            && close + 1 + |f.value| == i + |Render(f)|
            && s[i] == '<' && s[nameEnd] == ':' && s[close] == '>'
            && s[i + 1..nameEnd] == f.name
            && s[nameEnd + 1..close] == f.len
            && s[close + 1..i + |Render(f)|] == f.value
  {
    var r := Render(f);
    var n, l := |f.name|, |f.len|;
    RenderLayout(f);
    assert s[i] == r[0] && s[i + 1 + n] == r[1 + n] && s[i + 2 + n + l] == r[2 + n + l];
    SliceOfSlice(s, i, i + |r|, 1, 1 + n);
    SliceOfSlice(s, i, i + |r|, 2 + n, 2 + n + l);
    SliceOfSlice(s, i, i + |r|, 3 + n + l, |r|);
  }

  lemma SliceOfSlice(s: string, a: nat, b: nat, c: nat, d: nat)
    requires a <= b <= |s| && c <= d <= b - a
    ensures s[a..b][c..d] == s[a + c..a + d]
  {
    assert |s[a..b][c..d]| == d - c == |s[a + c..a + d]|;
    forall k | 0 <= k < d - c ensures s[a..b][c..d][k] == s[a + c..a + d][k] {
      assert s[a..b][c..d][k] == s[a..b][c + k] == s[a + c + k];
    }
  }

  /** A rendered field followed by '<' or by the end of the text is one match
      whose name is the field's name and whose text is the whole value: the
      declared length plays no part. */
  lemma FieldMatch(s: string, i: nat, f: Field)
    requires i + |Render(f)| <= |s| && s[i..i + |Render(f)|] == Render(f)
    requires f.name != [] && ':' !in f.name && '>' !in f.name && '>' !in f.len && '<' !in f.value
    requires i + |Render(f)| == |s| || s[i + |Render(f)|] == '<'
    ensures MatchAt(s, i) == Some(TagMatch(i, f.name, f.value, i + |Render(f)|))
  {
    FieldLayout(s, i, f);
    var nameEnd := i + 1 + |f.name|;
    var close := nameEnd + 1 + |f.len|;
    var next := i + |Render(f)|;
    CharsOfSlice(s, i + 1, nameEnd, f.name, '>');
    CharsOfSlice(s, i + 1, nameEnd, f.name, ':');
    CharsOfSlice(s, nameEnd + 1, close, f.len, '>');
    CharsOfSlice(s, close + 1, next, f.value, '<');
    assert s[i + 1] == f.name[0];
    IndexOfAnyIs(s, i + 1, {'>'}, close);
    IndexOfAnyIs(s, i + 1, {'>', ':'}, nameEnd);
    IndexOfAnyIs(s, close + 1, {'<'}, next);
  }

  /** The terminator tag ends the record: nothing after it is stored. */
  lemma EorStops(pre: string, rest: string, acc: map<string, string>)
    ensures Collect(acc, MatchesFrom(pre + "<EOR>" + rest, |pre|)) == acc
  {
    EorMatch(pre, rest);
    TerminatorFirst(pre + "<EOR>" + rest, |pre|, acc);
  }

  /** `<EOR>` is matched where it stands, with the name `EOR`. */
  lemma EorMatch(pre: string, rest: string)
    ensures var s := pre + "<EOR>" + rest;
            MatchAt(s, |pre|).Some? && MatchAt(s, |pre|).value.name == "EOR"
  {
    var s := pre + "<EOR>" + rest;
    var i := |pre|;
    assert s[i] == '<' && s[i + 1] == 'E' && s[i + 2] == 'O' && s[i + 3] == 'R' && s[i + 4] == '>';
    IndexOfAnyIs(s, i + 1, {'>'}, i + 4);
    IndexOfAnyIs(s, i + 1, {'>', ':'}, i + 4);
    assert s[i + 1..i + 4] == "EOR";
  }

  /** A terminator where the scan resumes ends the record there. */
  lemma TerminatorFirst(s: string, i: nat, acc: map<string, string>)
    requires i <= |s| && MatchAt(s, i).Some? && IsTerminator(MatchAt(s, i).value)
    ensures Collect(acc, MatchesFrom(s, i)) == acc
  {
    assert NextMatch(s, i) == MatchAt(s, i);
  }

  /** How the text of a record splits around its first field. */
  lemma FirstFieldLayout(pre: string, fs: seq<Field>, rest: string)
    requires fs != []
    ensures var s := pre + RenderAll(fs) + "<EOR>" + rest;
            var i := |pre| + |Render(fs[0])|;
            && s == (pre + Render(fs[0])) + RenderAll(fs[1..]) + "<EOR>" + rest
            && i < |s| && s[|pre|..i] == Render(fs[0]) && s[i] == '<'
  {
    var f := fs[0];
    var tail := RenderAll(fs[1..]) + "<EOR>" + rest;
    assert RenderAll(fs) == Render(f) + RenderAll(fs[1..]);
    assert pre + RenderAll(fs) + "<EOR>" + rest == pre + Render(f) + tail;
    assert tail[0] == '<' by {
      if fs[1..] != [] {
        assert RenderAll(fs[1..]) == Render(fs[1]) + RenderAll(fs[2..]);
        assert Render(fs[1])[0] == '<';
      }
    }
  }

  /** The first field of a record is the first match, and the scan resumes
      at the '<' of the next field. */
  lemma FirstFieldMatches(pre: string, fs: seq<Field>, rest: string)
    requires fs != [] && Readable(fs[0])
    ensures var pre' := pre + Render(fs[0]);
            MatchesFrom(pre + RenderAll(fs) + "<EOR>" + rest, |pre|)
            == [TagMatch(|pre|, fs[0].name, fs[0].value, |pre'|)]
               + MatchesFrom(pre' + RenderAll(fs[1..]) + "<EOR>" + rest, |pre'|)
  {
    var s := pre + RenderAll(fs) + "<EOR>" + rest;
    FirstFieldLayout(pre, fs, rest);
    FieldMatch(s, |pre|, fs[0]);
  }

  lemma CollectCons(acc: map<string, string>, m: TagMatch, ms: seq<TagMatch>)
    requires !IsTerminator(m)
    ensures Collect(acc, [m] + ms) == Collect(acc[KeyOf(m) := ValueOf(m)], ms)
  {
    assert ([m] + ms)[1..] == ms;
  }

  lemma {:induction false} RenderedMatches(pre: string, fs: seq<Field>, rest: string, acc: map<string, string>)
    requires forall j :: 0 <= j < |fs| ==> Readable(fs[j])
    ensures Collect(acc, MatchesFrom(pre + RenderAll(fs) + "<EOR>" + rest, |pre|)) == StoreFields(acc, fs)
    decreases |fs|
  {
    if fs == [] {
      assert pre + RenderAll(fs) == pre;
      EorStops(pre, rest, acc);
    } else {
      var f := fs[0];
      var pre' := pre + Render(f);
      var m := TagMatch(|pre|, f.name, f.value, |pre'|);
      FirstFieldMatches(pre, fs, rest);
      CollectCons(acc, m, MatchesFrom(pre' + RenderAll(fs[1..]) + "<EOR>" + rest, |pre'|));
      RenderedMatches(pre', fs[1..], rest, acc[Upper(f.name) := Trim(f.value)]);
    }
  }

  /** Any record of readable fields closed by `<EOR>` parses to the map of
      its upper-cased names to its trimmed values, whatever follows the
      terminator and whatever lengths the fields declare. */
  lemma ParseRendered(fs: seq<Field>, rest: string)
    requires forall j :: 0 <= j < |fs| ==> Readable(fs[j])
    ensures Parse(RenderAll(fs) + "<EOR>" + rest) == StoreFields(map[], fs)
  {
    RenderedMatches("", fs, rest, map[]);
    EmptyPrefix(RenderAll(fs));
  }

  lemma EmptyPrefix(s: string)
    ensures "" + s == s
  {
  }

  /** The worked example of the relay: `<CALL:6>LU5WSO<BAND:3>40m<MODE:3>CW<EOR>`. */
  lemma ExampleRecord()
    ensures Parse("<CALL:6>LU5WSO<BAND:3>40m<MODE:3>CW<EOR>")
            == map["CALL" := "LU5WSO", "BAND" := "40m", "MODE" := "CW"]
  {
    var fs := ExampleFields();
    ExampleText();
    ExampleReadable();
    ParseRendered(fs, "");
    ExampleStored();
  }

  function ExampleFields(): seq<Field> {
    [Field("CALL", "6", "LU5WSO"), Field("BAND", "3", "40m"), Field("MODE", "3", "CW")]
  }

  lemma ExampleText()
    ensures RenderAll(ExampleFields()) + "<EOR>" + "" == "<CALL:6>LU5WSO<BAND:3>40m<MODE:3>CW<EOR>"
  {
    var fs := ExampleFields();
    calc {
      RenderAll(fs) + "<EOR>" + "";
      Render(fs[0]) + RenderAll(fs[1..]) + "<EOR>" + "";
      { assert fs[1..][1..] == fs[2..]; }
      Render(fs[0]) + (Render(fs[1]) + RenderAll(fs[2..])) + "<EOR>" + "";
      { assert fs[2..][1..] == []; }
      Render(fs[0]) + (Render(fs[1]) + (Render(fs[2]) + "")) + "<EOR>" + "";
      { ExampleRenders(); }
      "<CALL:6>LU5WSO" + ("<BAND:3>40m" + ("<MODE:3>CW" + "")) + "<EOR>" + "";
      { ExampleConcat(); }
      "<CALL:6>LU5WSO<BAND:3>40m<MODE:3>CW<EOR>";
    }
  }

  lemma ExampleConcat()
    ensures "<CALL:6>LU5WSO" + ("<BAND:3>40m" + ("<MODE:3>CW" + "")) + "<EOR>" + ""
            == "<CALL:6>LU5WSO<BAND:3>40m<MODE:3>CW<EOR>"
  {
    var mode := "<MODE:3>CW";
    var bandMode := "<BAND:3>40m" + mode;
    var fields := "<CALL:6>LU5WSO" + bandMode;
    assert mode + "" == mode;
    assert bandMode == "<BAND:3>40m<MODE:3>CW";
    assert fields == "<CALL:6>LU5WSO<BAND:3>40m<MODE:3>CW";
    assert fields + "<EOR>" + "" == fields + "<EOR>";
  }

  lemma ExampleRenders()
    ensures Render(ExampleFields()[0]) == "<CALL:6>LU5WSO"
    ensures Render(ExampleFields()[1]) == "<BAND:3>40m"
    ensures Render(ExampleFields()[2]) == "<MODE:3>CW"
  {
  }

  lemma UpperUnchanged(s: string)
    requires NoLowerAscii(s)
    ensures Upper(s) == s
  {
  }

  lemma ExampleReadable()
    ensures forall j :: 0 <= j < |ExampleFields()| ==> Readable(ExampleFields()[j])
  {
    UpperUnchanged("CALL");
    UpperUnchanged("BAND");
    UpperUnchanged("MODE");
  }

  /** Storing one readable field whose name is already upper case and whose value is already trimmed. */
  lemma StoreOne(acc: map<string, string>, fs: seq<Field>)
    requires fs != [] && NoLowerAscii(fs[0].name)
    requires fs[0].value != [] && !IsSpace(fs[0].value[0]) && !IsSpace(fs[0].value[|fs[0].value| - 1])
    ensures StoreFields(acc, fs) == StoreFields(acc[fs[0].name := fs[0].value], fs[1..])
  {
    UpperUnchanged(fs[0].name);
    TrimUnchanged(fs[0].value);
  }

  lemma ExampleStored()
    ensures StoreFields(map[], ExampleFields()) == map["CALL" := "LU5WSO", "BAND" := "40m", "MODE" := "CW"]
  {
    var fs := ExampleFields();
    StoreOne(map[], fs);
    ExampleStoredTail();
  }

  lemma ExampleStoredTail()
    ensures StoreFields(map["CALL" := "LU5WSO"], ExampleFields()[1..])
            == map["CALL" := "LU5WSO", "BAND" := "40m", "MODE" := "CW"]
  {
    var fs := ExampleFields()[1..];
    StoreOne(map["CALL" := "LU5WSO"], fs);
    ExampleStoredLast();
  }

  lemma ExampleStoredLast()
    ensures StoreFields(map["CALL" := "LU5WSO", "BAND" := "40m"], ExampleFields()[1..][1..])
            == map["CALL" := "LU5WSO", "BAND" := "40m", "MODE" := "CW"]
  {
    var fs := ExampleFields()[1..][1..];
    StoreOne(map["CALL" := "LU5WSO", "BAND" := "40m"], fs);
    assert fs[1..] == [];
  }
}
