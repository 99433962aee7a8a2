/**
 * The text clean-up `download_data` applies to the downloaded CSV lines before
 * they are tokenised: a line whose first character is a comma (an empty
 * Province/State column) gets one space in front, so that its first field is
 * " " rather than empty. The CSV tokeniser itself is not modelled; `Fields`
 * splits a line on commas, which is what the tokeniser does with a line that
 * holds no quote characters and no line terminator.
 */
module Download {

  /** The rewrite applied to one line that has at least one character. */
  function NormaliseLine(line: string): string
  {
    if |line| > 0 && line[0] == ',' then " " + line else line
  }

  /** Index of the first empty line, or |lines| when there is none. */
  function FirstEmpty(lines: seq<string>): (k: nat)
    ensures k <= |lines|
    ensures forall i :: 0 <= i < k ==> |lines[i]| > 0
    ensures k < |lines| ==> |lines[k]| == 0
  {
    if lines == [] then 0
    else if |lines[0]| == 0 then 0
    else 1 + FirstEmpty(lines[1..])
  }

  /**
   * The loop of `download_data` that rewrites `data[n]` in place. An empty line
   * makes `row[0]` raise IndexError; the lines before it have been rewritten
   * by then and the ones from it on have not, and `ok` is false.
   */
  method NormaliseLines(data: array<string>) returns (ok: bool)
    modifies data
    ensures ok <==> forall i :: 0 <= i < data.Length ==> |old(data[i])| > 0
    ensures forall i :: 0 <= i < data.Length ==>
      data[i] == if i < FirstEmpty(old(data[..])) then NormaliseLine(old(data[i])) else old(data[i])
  {
    ghost var original := data[..];
    var n := 0;
    while n < data.Length
      invariant 0 <= n <= data.Length
      invariant forall i :: 0 <= i < n ==> |original[i]| > 0 && data[i] == NormaliseLine(original[i])
      invariant forall i :: n <= i < data.Length ==> data[i] == original[i]
    {
      var row := data[n];
      if |row| == 0 {
        FirstEmptyIsFirst(original, n);
        return false;
      }
      data[n] := if row[0] == ',' then " " + row else row;
      assert data[n] == NormaliseLine(original[n]);
      n := n + 1;
    }
    FirstEmptyAbove(original, n);
    return true;
  }

  lemma {:induction false} FirstEmptyIsFirst(lines: seq<string>, n: nat)
    requires n < |lines| && |lines[n]| == 0
    requires forall i :: 0 <= i < n ==> |lines[i]| > 0
    ensures FirstEmpty(lines) == n
  {
    if n > 0 {
      FirstEmptyIsFirst(lines[1..], n - 1);
    }
  }

  lemma {:induction false} FirstEmptyAbove(lines: seq<string>, n: nat)
    requires n <= |lines|
    requires forall i :: 0 <= i < n ==> |lines[i]| > 0
    ensures n <= FirstEmpty(lines)
  {
    if n > 0 {
      FirstEmptyAbove(lines[1..], n - 1);
    }
  }

  /** A line split on every comma; there is always at least one field. */
  function Fields(line: string): (r: seq<string>)
    ensures |r| >= 1
  {
    if line == [] then [""]
    else if line[0] == ',' then [""] + Fields(line[1..])
    else
      var rest := Fields(line[1..]);
      [[line[0]] + rest[0]] + rest[1..]
  }

  /** The inverse of `Fields`: the fields joined back with commas. */
  function Join(fields: seq<string>): string
    requires |fields| >= 1
  {
    if |fields| == 1 then fields[0] else fields[0] + "," + Join(fields[1..])
  }

  /** A line that does not start with a comma: its first character opens the first field. */
  lemma FieldsCons(line: string)
    requires line != [] && line[0] != ','
    ensures Fields(line)[0] == [line[0]] + Fields(line[1..])[0]
    ensures Fields(line)[1..] == Fields(line[1..])[1..]
  {
  }

  /** Prepending a character to the first field prepends it to the joined line. */
  lemma JoinPrepend(c: char, fields: seq<string>)
    requires |fields| >= 1
    ensures Join([[c] + fields[0]] + fields[1..]) == [c] + Join(fields)
  {
    var r := [[c] + fields[0]] + fields[1..];
    if |fields| > 1 {
      var tail := Join(fields[1..]);
      assert r[1..] == fields[1..];
      assert Join(r) == r[0] + "," + tail;
      assert Join(fields) == fields[0] + "," + tail;
      Regroup(c, fields[0], tail);
    }
  }

  lemma Regroup(c: char, x: string, y: string)
    ensures ([c] + x) + "," + y == [c] + (x + "," + y)
  {
  }

  /** Splitting loses nothing: joining the fields gives the line back. */
  lemma {:induction false} FieldsJoin(line: string)
    ensures Join(Fields(line)) == line
  {
    if line != [] {
      FieldsJoin(line[1..]);
      var rest := Fields(line[1..]);
      if line[0] == ',' {
        var r := [""] + rest;
        assert r[1..] == rest;
        assert Join(r) == "" + "," + Join(rest);
      } else {
        JoinPrepend(line[0], rest);
      }
      assert line == [line[0]] + line[1..];
    }
  }

  /** No field holds a comma. */
  lemma {:induction false} FieldsCommaFree(line: string)
    ensures forall i :: 0 <= i < |Fields(line)| ==> ',' !in Fields(line)[i]
  {
    if line != [] {
      FieldsCommaFree(line[1..]);
      var rest := Fields(line[1..]);
      var r := Fields(line);
      if line[0] == ',' {
        assert r[1..] == rest;
        forall i | 1 <= i < |r|
          ensures ',' !in r[i]
        {
          assert r[i] == rest[i - 1];
        }
      } else {
        FieldsCons(line);
        forall i | 1 <= i < |r|
          ensures ',' !in r[i]
        {
          assert r[i] == rest[i];
        }
      }
    }
  }

  /**
   * What the rewrite does to the columns of a line: a line with an empty first
   * field gets the first field " " and keeps every other field; any other line
   * keeps all its fields. The number of columns never changes, and the first
   * column is never empty afterwards.
   */
  lemma NormaliseFields(line: string)
    requires line != ""
    ensures |Fields(NormaliseLine(line))| == |Fields(line)|
    ensures line[0] == ',' ==> Fields(NormaliseLine(line)) == [" "] + Fields(line)[1..]
    ensures line[0] == ',' ==> Fields(line)[0] == ""
    ensures line[0] != ',' ==> NormaliseLine(line) == line
    ensures Fields(NormaliseLine(line))[0] != ""
  {
    if line[0] == ',' {
      var n := " " + line;
      assert n[1..] == line;
      assert Fields(line) == [""] + Fields(line[1..]);
      var rest := Fields(n[1..]);
      assert Fields(n) == [[n[0]] + rest[0]] + rest[1..];
      assert [n[0]] + rest[0] == " ";
    } else {
      assert Fields(line)[0] == [line[0]] + Fields(line[1..])[0];
    }
  }
}
