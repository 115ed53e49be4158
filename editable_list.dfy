/** Parsing the text printed by `pip list --editable` into a map from package name to its
    source location (`_find_local_pip`). Running pip is not modelled: the decoded output is
    the input. */
module EditableList {
  import opened Values

  /** `c.isspace()` in Python: the characters `str.split()` separates fields on. */
  predicate IsSpace(c: char)
  {
    var n := c as int;
    (0x09 <= n <= 0x0D) || (0x1C <= n <= 0x20) || n == 0x85 || n == 0xA0 || n == 0x1680
    || (0x2000 <= n <= 0x200A) || n == 0x2028 || n == 0x2029 || n == 0x202F || n == 0x205F
    || n == 0x3000
  }

  predicate NoSpace(w: string)
  {
    forall k :: 0 <= k < |w| ==> !IsSpace(w[k])
  }

  predicate AllSpace(s: string)
  {
    forall k :: 0 <= k < |s| ==> IsSpace(s[k])
  }

  /** `s.split('\n')`: always at least one piece, none holding a newline. */
  function SplitLines(s: string): (r: seq<string>)
    ensures |r| >= 1
    ensures forall l :: l in r ==> '\n' !in l
  {
    if s == [] then [""]
    else
      var rest := SplitLines(s[1..]);
      if s[0] == '\n' then [""] + rest else [[s[0]] + rest[0]] + rest[1..]
  }

  /** `"\n".join(ls)` */
  function JoinLines(ls: seq<string>): string
  {
    if ls == [] then "" else if |ls| == 1 then ls[0] else ls[0] + "\n" + JoinLines(ls[1..])
  }

  /** Splitting at newlines and joining again gives back the text. */
  lemma {:induction false} JoinSplitLines(s: string)
    ensures JoinLines(SplitLines(s)) == s
  {
    if s != [] {
      var rest := SplitLines(s[1..]);
      JoinSplitLines(s[1..]);
      assert s == [s[0]] + s[1..];
      if s[0] == '\n' {
        assert SplitLines(s) == [""] + rest;
        assert ([""] + rest)[1..] == rest;
      } else if |rest| == 1 {
        assert SplitLines(s) == [[s[0]] + rest[0]];
      } else {
        var r := SplitLines(s);
        assert r == [[s[0]] + rest[0]] + rest[1..];
        assert r[1..] == rest[1..];
        calc {
          JoinLines(r);
          ([s[0]] + rest[0]) + "\n" + JoinLines(rest[1..]);
          [s[0]] + (rest[0] + "\n" + JoinLines(rest[1..]));
          [s[0]] + JoinLines(rest);
        }
      }
    }
  }

  /** A newline-free prefix extends the first line. */
  lemma {:induction false} SplitLinesPrefix(a: string, t: string)
    requires '\n' !in a
    ensures SplitLines(a + t) == [a + SplitLines(t)[0]] + SplitLines(t)[1..]
  {
    var st := SplitLines(t);
    if a != [] {
      assert (a + t)[1..] == a[1..] + t;
      assert a[0] in a;
      SplitLinesPrefix(a[1..], t);
      var rest := SplitLines(a[1..] + t);
      assert rest[0] == a[1..] + st[0] && rest[1..] == st[1..];
      assert a == [a[0]] + a[1..];
      assert [a[0]] + rest[0] == a + st[0];
    } else {
      assert a + t == t;
      assert a + st[0] == st[0];
      assert st == [st[0]] + st[1..];
    }
  }

  /** Joining newline-free lines and splitting again gives back the lines. */
  lemma {:induction false} SplitJoinLines(ls: seq<string>)
    requires |ls| >= 1
    requires forall l :: l in ls ==> '\n' !in l
    ensures SplitLines(JoinLines(ls)) == ls
  {
    assert ls[0] in ls;
    if |ls| == 1 {
      SplitLinesPrefix(ls[0], "");
      assert ls[0] + "" == ls[0];
      assert SplitLines("") == [""];
    } else {
      assert forall l :: l in ls[1..] ==> l in ls;
      SplitJoinLines(ls[1..]);
      var t := "\n" + JoinLines(ls[1..]);
      assert ls[0] + "\n" + JoinLines(ls[1..]) == ls[0] + t;
      SplitLinesPrefix(ls[0], t);
      assert t[0] == '\n' && t[1..] == JoinLines(ls[1..]);
      assert SplitLines(t) == [""] + ls[1..];
      assert SplitLines(t)[0] == "" && SplitLines(t)[1..] == ls[1..];
      assert ls[0] + "" == ls[0];
      assert ls == [ls[0]] + ls[1..];
    }
  }

  /** Length of the field at the start of s. */
  function WordLength(s: string): (n: nat)
    ensures n <= |s|
    ensures forall k :: 0 <= k < n ==> !IsSpace(s[k])
    ensures n < |s| ==> IsSpace(s[n])
  {
    if s == [] || IsSpace(s[0]) then 0 else 1 + WordLength(s[1..])
  }

  /** `s.split()`: the maximal runs of non-whitespace characters, in order. */
  function Fields(s: string): (r: seq<string>)
    decreases |s|
    ensures forall w :: w in r ==> w != [] && NoSpace(w)
  {
    if s == [] then []
    else if IsSpace(s[0]) then Fields(s[1..])
    else
      var n := WordLength(s);
      [s[..n]] + Fields(s[n..])
  }

  /** `" ".join(ws)` */
  function Unwords(ws: seq<string>): string
  {
    if ws == [] then "" else if |ws| == 1 then ws[0] else ws[0] + " " + Unwords(ws[1..])
  }

  /** A whitespace-only (or empty) line has no fields. */
  lemma {:induction false} FieldsOfBlank(s: string)
    requires AllSpace(s)
    ensures Fields(s) == []
  {
    if s != [] {
      FieldsOfBlank(s[1..]);
    }
  }

  /** Leading whitespace does not change the fields. */
  lemma {:induction false} FieldsSkipSpace(sp: string, t: string)
    requires AllSpace(sp)
    ensures Fields(sp + t) == Fields(t)
  {
    if sp != [] {
      assert (sp + t)[1..] == sp[1..] + t;
      FieldsSkipSpace(sp[1..], t);
    } else {
      assert sp + t == t;
    }
  }

  lemma {:induction false} WordLengthOf(w: string, t: string)
    requires NoSpace(w)
    requires t == [] || IsSpace(t[0])
    ensures WordLength(w + t) == |w|
  {
    if w != [] {
      assert (w + t)[1..] == w[1..] + t;
      WordLengthOf(w[1..], t);
    } else {
      assert w + t == t;
    }
  }

  /** Fields joined by single spaces split back into the same fields: `split()` inverts
      `" ".join` on non-empty, whitespace-free fields. */
  lemma {:induction false} FieldsUnwords(ws: seq<string>)
    requires forall w :: w in ws ==> w != [] && NoSpace(w)
    ensures Fields(Unwords(ws)) == ws
  {
    if ws != [] {
      var w := ws[0];
      assert w in ws;
      var t := if |ws| == 1 then "" else " " + Unwords(ws[1..]);
      assert Unwords(ws) == w + t;
      WordLengthOf(w, t);
      assert (w + t)[..|w|] == w;
      assert (w + t)[|w|..] == t;
      assert Fields(w + t) == [w] + Fields(t);
      if |ws| > 1 {
        assert forall v :: v in ws[1..] ==> v in ws;
        FieldsUnwords(ws[1..]);
        FieldsSkipSpace(" ", Unwords(ws[1..]));
      }
      assert ws == [w] + ws[1..];
    }
  }

  /** The rows after the two header lines of `pip list --editable` (`split('\n')[2:]`). */
  function Rows(output: string): seq<string>
  {
    var lines := SplitLines(output);
    if |lines| < 2 then [] else lines[2..]
  }

  /** A row is skipped when empty and must otherwise split into (name, version, location). */
  predicate RowOk(row: string)
  {
    row == "" || |Fields(row)| == 3
  }

  /** The parse from map `pathOf` over the remaining rows: an empty row is skipped, a row that
      does not split into exactly three fields raises ValueError, any other row maps its first
      field to its third, overwriting an earlier row with the same name. */
  function ParseRows(pathOf: map<string, string>, rows: seq<string>): (r: Result<map<string, string>>)
    ensures r.Err? ==> r.exc == ValueError
    ensures r.Ok? ==> pathOf.Keys <= r.value.Keys
    decreases |rows|
  {
    if rows == [] then Ok(pathOf)
    else if rows[0] == "" then ParseRows(pathOf, rows[1..])
    else
      var f := Fields(rows[0]);
      if |f| != 3 then Err(ValueError) else ParseRows(pathOf[f[0] := f[2]], rows[1..])
  }

  /** `_find_local_pip` after the subprocess: the loop that fills `path_of`. */
  method FindLocalPip(output: string) returns (r: Result<map<string, string>>)
    ensures r == ParseRows(map[], Rows(output))
  {
    var lines := SplitLines(output);
    var rows := if |lines| < 2 then [] else lines[2..];
    var pathOf: map<string, string> := map[];
    var i := 0;
    while i < |rows|
      invariant 0 <= i <= |rows|
      invariant ParseRows(map[], rows) == ParseRows(pathOf, rows[i..])
    {
      var line := rows[i];
      assert rows[i..][0] == line && rows[i..][1..] == rows[i + 1..];
      if line == "" {
        i := i + 1;
        continue;
      }
      var fields := Fields(line);
      if |fields| != 3 {
        return Err(ValueError);
      }
      pathOf := pathOf[fields[0] := fields[2]];
      i := i + 1;
    }
    return Ok(pathOf);
  }

  /** The parse fails exactly when some row is neither empty nor three fields, and the only
      failure is ValueError. */
  lemma {:induction false} ParseFailsIff(pathOf: map<string, string>, rows: seq<string>)
    ensures ParseRows(pathOf, rows).Ok? <==> forall k :: 0 <= k < |rows| ==> RowOk(rows[k])
    ensures ParseRows(pathOf, rows).Err? ==> ParseRows(pathOf, rows).exc == ValueError
    decreases |rows|
  {
    if rows != [] {
      if RowOk(rows[0]) {
        var next := if rows[0] == "" then pathOf else pathOf[Fields(rows[0])[0] := Fields(rows[0])[2]];
        ParseFailsIff(next, rows[1..]);
        assert forall k :: 1 <= k < |rows| ==> rows[k] == rows[1..][k - 1];
      }
    }
  }

  /** A whitespace-only row makes the whole parse fail. */
  lemma BlankRowFails(pathOf: map<string, string>, rows: seq<string>, k: nat)
    requires k < |rows| && rows[k] != "" && AllSpace(rows[k])
    ensures ParseRows(pathOf, rows) == Err(ValueError)
  {
    FieldsOfBlank(rows[k]);
    ParseFailsIff(pathOf, rows);
  }

  /** The name column of the non-empty rows. */
  function Names(rows: seq<string>): set<string>
  {
    if rows == [] then {}
    else (if rows[0] != "" && |Fields(rows[0])| == 3 then {Fields(rows[0])[0]} else {}) + Names(rows[1..])
  }

  /** The keys of the result are the starting keys and the names of all non-empty rows. */
  lemma {:induction false} ParseKeys(pathOf: map<string, string>, rows: seq<string>)
    requires ParseRows(pathOf, rows).Ok?
    ensures ParseRows(pathOf, rows).value.Keys == pathOf.Keys + Names(rows)
    decreases |rows|
  {
    if rows != [] {
      if rows[0] == "" {
        ParseKeys(pathOf, rows[1..]);
      } else {
        var f := Fields(rows[0]);
        ParseKeys(pathOf[f[0] := f[2]], rows[1..]);
      }
    }
  }

  /** A row's location survives unless a later row names the same package: the last row wins. */
  lemma {:induction false} ParseLastRowWins(pathOf: map<string, string>, rows: seq<string>, k: nat)
    requires ParseRows(pathOf, rows).Ok?
    requires k < |rows| && |Fields(rows[k])| == 3
    requires Fields(rows[k])[0] !in Names(rows[k + 1..])
    ensures Fields(rows[k])[0] in ParseRows(pathOf, rows).value
    ensures ParseRows(pathOf, rows).value[Fields(rows[k])[0]] == Fields(rows[k])[2]
    decreases |rows|
  {
    var f := Fields(rows[0]);
    if k == 0 {
      ParseKeys(pathOf[f[0] := f[2]], rows[1..]);
      LaterRowsKeep(pathOf[f[0] := f[2]], rows[1..], f[0]);
    } else {
      assert rows[1..][k - 1] == rows[k] && rows[1..][k - 1 + 1..] == rows[k + 1..];
      if rows[0] == "" {
        ParseLastRowWins(pathOf, rows[1..], k - 1);
      } else {
        ParseLastRowWins(pathOf[f[0] := f[2]], rows[1..], k - 1);
      }
    }
  }

  /** Rows that do not name `key` leave its entry as it was. */
  lemma {:induction false} LaterRowsKeep(pathOf: map<string, string>, rows: seq<string>, key: string)
    requires ParseRows(pathOf, rows).Ok?
    requires key in pathOf && key !in Names(rows)
    ensures key in ParseRows(pathOf, rows).value
    ensures ParseRows(pathOf, rows).value[key] == pathOf[key]
    decreases |rows|
  {
    if rows != [] {
      if rows[0] == "" {
        LaterRowsKeep(pathOf, rows[1..], key);
      } else {
        var f := Fields(rows[0]);
        LaterRowsKeep(pathOf[f[0] := f[2]], rows[1..], key);
      }
    }
  }

  /** A well-formed row is read as (name, version, location); an empty row is skipped. */
  lemma ParseExample()
    ensures ParseRows(map[], ["foo 1.0 /src/foo", ""]) == Ok(map["foo" := "/src/foo"])
  {
    assert Fields("foo 1.0 /src/foo") == ["foo", "1.0", "/src/foo"] by {
      assert "foo 1.0 /src/foo" == Unwords(["foo", "1.0", "/src/foo"]);
      assert forall w :: w in ["foo", "1.0", "/src/foo"] ==> w != [] && NoSpace(w);
      FieldsUnwords(["foo", "1.0", "/src/foo"]);
    }
  }

  /** The first two lines are dropped as a header; the trailing newline leaves an empty row. */
  lemma RowsExample()
    ensures Rows("P V L\n- - -\nfoo 1.0 /f\n") == ["foo 1.0 /f", ""]
  {
    var lines := ["P V L", "- - -", "foo 1.0 /f", ""];
    assert JoinLines(lines[3..]) == "";
    assert JoinLines(lines[2..]) == "foo 1.0 /f\n";
    assert JoinLines(lines[1..]) == "- - -\nfoo 1.0 /f\n";
    assert JoinLines(lines) == "P V L\n- - -\nfoo 1.0 /f\n";
    assert forall l :: l in lines ==> '\n' !in l;
    SplitJoinLines(lines);
  }
}
