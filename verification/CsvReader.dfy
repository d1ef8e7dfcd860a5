// Reading lines through a buffer (src/readers/csv-reader.h).
module CsvReader {
  import opened CsvText

  const BUFF_SIZE: nat := 8192

  // What the buffer holds at the end of a short last chunk, right after it:
  // the byte of the chunk before, or the zero it was created with.
  ghost function LeftOver(text: string): char {
    if |text| < BUFF_SIZE then '\0' else text[|text| - BUFF_SIZE]
  }

  // The text ends inside a chunk, and no newline follows it in the buffer.
  ghost predicate EndsWell(text: string) {
    |text| % BUFF_SIZE != 0 && LeftOver(text) != '\n'
  }

  class Reader {
    const text: string // the file in the archive
    const buffer: array<char>
    var pos: nat // how much of it has been put into the buffer
    var current: nat
    var last: nat
    var eof: bool

    ghost predicate Valid()
      reads this, buffer
    {
      && buffer.Length == BUFF_SIZE && current <= last <= BUFF_SIZE && last <= pos <= |text|
      && (pos - last) % BUFF_SIZE == 0
      && (0 < last < BUFF_SIZE ==> pos == |text|)
      && forall i :: 0 <= i < BUFF_SIZE ==> buffer[i] == Held(pos - last, last, i)
    }

    // Byte `i` of the buffer when it holds `size` characters from `base` on.
    ghost function Held(base: nat, size: nat, i: nat): char
      requires base + size <= |text| && size <= BUFF_SIZE && i < BUFF_SIZE
    {
      if i < size then text[base + i] else if base < BUFF_SIZE then '\0' else text[base - BUFF_SIZE + i]
    }

    // Where the next line starts.
    ghost function At(): nat
      reads this, buffer
      requires Valid()
    {
      pos - last + current
    }

    // Past the end of the text, in what earlier chunks have left.
    ghost predicate Lost()
      reads this
    {
      buffer.Length == BUFF_SIZE && pos == |text| && (last == current == 0 || 0 < last < current <= BUFF_SIZE)
    }

    constructor (text: string)
      ensures Valid() && this.text == text && At() == 0 && !eof && fresh(buffer)
    {
      this.text, pos, current, last, eof := text, 0, 0, 0, false;
      buffer := new char[BUFF_SIZE](i => '\0');
    }

    // zip_fread: the next chunk, full unless the text ends.
    method Fread()
      requires buffer.Length == BUFF_SIZE && pos <= |text| && last == current == 0 && (Valid() || Lost())
      modifies this`pos, this`last, buffer
      ensures last == (if |text| - old(pos) < BUFF_SIZE then |text| - old(pos) else BUFF_SIZE) && pos == old(pos) + last
      ensures old(Valid()) && last > 0 ==> Valid()
      ensures old(Lost()) ==> last == 0
    {
      last := if |text| - pos < BUFF_SIZE then |text| - pos else BUFF_SIZE;
      forall i | 0 <= i < last {
        buffer[i] := text[pos + i];
      }
      pos := pos + last;
    }

    // What reading the line that starts at `p` comes to: a line; the last
    // line, which is empty if the text ends with a newline and otherwise
    // lacks a character; a line that is not recognized as the last; or
    // nothing, where an assertion fails.
    ghost function LineAt(prefix: string, p: nat): Read
      requires p <= |text|
    {
      var q := Find(text, '\n', p);
      if q < |text| then Read(true, false, prefix + text[p..q])
      else if |text| % BUFF_SIZE == 0 then Read(false, false, "")
      else if EndsWell(text) then Read(true, true, prefix + if p == |text| then "" else text[p..|text| - 1])
      else Read(true, false, prefix + text[p..])
    }

    // Where that leaves the reader.
    ghost predicate Past(p: nat)
      reads this, buffer
      requires p <= |text|
    {
      var q := Find(text, '\n', p);
      if q < |text| then Valid() && At() == q + 1 else |text| % BUFF_SIZE == 0 || EndsWell(text) || (Lost() && last > 0)
    }

    lemma LineEnds(prefix: string, p: nat, e: nat)
      requires p <= e <= |text| && Find(text, '\n', p) == Find(text, '\n', e)
      ensures e < |text| && text[e] == '\n' ==> LineAt(prefix, p) == Read(true, false, prefix + text[p..e]) && Find(text, '\n', p) == e
      ensures e == |text| && |text| % BUFF_SIZE != 0 ==>
                LineAt(prefix, p) == if EndsWell(text) then Read(true, true, prefix + if p == e then "" else text[p..e - 1])
                                     else Read(true, false, prefix + text[p..e])
    {
      assert text[p..|text|] == text[p..];
    }

    lemma LineGoesOn(prefix: string, p: nat, m: nat)
      requires p <= m <= |text| && m % BUFF_SIZE == 0 && Find(text, '\n', p) == Find(text, '\n', m)
      ensures LineAt(prefix, p) == LineAt(prefix + text[p..m], m)
    {
      var q := Find(text, '\n', m);
      assert prefix + text[p..q] == prefix + text[p..m] + text[m..q];
      if m < |text| {
        assert prefix + text[p..|text| - 1] == prefix + text[p..m] + text[m..|text| - 1];
      }
      assert prefix + text[p..] == prefix + text[p..m] + text[m..];
    }

    // readLine: up to the next newline, across chunks. False where the
    // assertion that there is something to read fails.
    method ReadLine(prefix: string) returns (ok: bool, row: string)
      requires (Valid() || Lost()) && !eof
      modifies this`pos, this`current, this`last, this`eof, buffer
      ensures old(Valid()) ==> Read(ok, eof, row) == LineAt(prefix, old(At())) && Past(old(At()))
      ensures old(Lost()) && ok ==> !eof && Lost() && current > old(current)
      ensures old(Lost() && (last == 0 || current == BUFF_SIZE)) ==> !ok
      decreases |text| - pos, if last == 0 then 0 else 3
    {
      if current == BUFF_SIZE {
        current, last := 0, 0;
      }
      if last == 0 {
        Fread();
        if last == 0 {
          return false, "";
        }
      }
      ok, row := ReadBuffer(prefix);
    }

    method ReadBuffer(prefix: string) returns (ok: bool, row: string)
      requires (Valid() || Lost()) && !eof && last > 0 && current < BUFF_SIZE
      modifies this`pos, this`current, this`last, this`eof, buffer
      ensures old(Valid()) ==> Read(ok, eof, row) == LineAt(prefix, old(At())) && Past(old(At()))
      ensures old(Lost()) && ok ==> !eof && Lost() && current > old(current)
      decreases |text| - pos, 2
    {
      ghost var p := pos - last + current;
      var previous := current;
      var ended := Scan();
      assert pos - last + previous == p;
      if ended {
        row := TakeEnd(prefix, previous);
        ok := true;
      } else if current == BUFF_SIZE {
        ok, row := ReadOn(prefix, previous);
      } else {
        row := TakeRow(prefix, previous);
        ok := true;
      }
    }

    // The buffer has been searched from `from` on.
    ghost predicate Searched(from: nat)
      reads this, buffer
    {
      && Valid() && from <= current && last > 0
      && var p := pos - last + from;
         buffer[from..current] == text[p..At()] && Find(text, '\n', p) == Find(text, '\n', At())
    }

    // The end of the text.
    method TakeEnd(prefix: string, previous: nat) returns (row: string)
      requires Searched(previous) && eof && current == last < BUFF_SIZE && buffer[current] != '\n'
      ensures Read(true, eof, row) == LineAt(prefix, pos - last + previous) && Past(pos - last + previous)
    {
      AtEnd();
      LineEnds(prefix, pos - last + previous, At());
      assert previous < current ==> buffer[previous..current - 1] == buffer[previous..current][..current - previous - 1];
      row := prefix + if previous == current then "" else buffer[previous..current - 1];
    }

    // A newline, which is the end of a line or, past the end of the text, an
    // old one.
    method TakeRow(prefix: string, previous: nat) returns (row: string)
      requires Searched(previous) || Lost()
      requires previous <= current < BUFF_SIZE == buffer.Length && buffer[current] == '\n' && !eof
      modifies this`current
      ensures old(Searched(previous)) ==>
                var p := pos - last + previous;
                0 <= p <= |text| && Read(true, eof, row) == LineAt(prefix, p) && Past(p)
      ensures old(Lost() && last > 0) ==> Lost()
      ensures current == old(current) + 1
    {
      if Searched(previous) {
        AtEnd();
        LineEnds(prefix, pos - last + previous, At());
      }
      row := prefix + buffer[previous..current];
      current := current + 1;
    }

    // The rest of a line that goes on in the next chunk.
    method ReadOn(prefix: string, previous: nat) returns (ok: bool, row: string)
      requires Searched(previous) || Lost()
      requires previous <= current == BUFF_SIZE == buffer.Length && !eof
      modifies this`pos, this`current, this`last, this`eof, buffer
      ensures old(Searched(previous)) ==>
                var p := old(pos - last) + previous;
                Read(ok, eof, row) == LineAt(prefix, p) && Past(p)
      ensures old(Lost()) ==> !ok
      decreases |text| - pos, 1
    {
      if Searched(previous) {
        LineGoesOn(prefix, pos - last + previous, At());
      }
      row := prefix + buffer[previous..current];
      current, last := 0, 0;
      ok, row := ReadLine(row);
    }

    // Moves to the next newline in the buffer, or to its end, or to the end
    // of the text.
    method Scan() returns (ended: bool)
      requires (Valid() || Lost()) && !eof && last > 0 && current < BUFF_SIZE
      modifies this`current, this`eof
      ensures old(current) <= current <= BUFF_SIZE && eof == ended
      ensures old(Valid()) ==> Searched(old(current))
      ensures old(Lost()) ==> Lost() && !ended
      ensures ended ==> current == last < BUFF_SIZE && buffer[current] != '\n'
      ensures !ended && current < BUFF_SIZE ==> buffer[current] == '\n'
    {
      ghost var from, valid := current, Valid();
      while current < BUFF_SIZE && buffer[current] != '\n'
        invariant old(current) <= current <= BUFF_SIZE && !eof
        invariant old(Valid()) ==> Valid()
        invariant forall i :: old(current) <= i < current ==> buffer[i] != '\n'
      {
        if current == last {
          eof := true;
          if valid { Scanned(from); }
          return true;
        }
        current := current + 1;
      }
      if valid { Scanned(from); }
      return false;
    }

    // The part of the buffer without a newline is a part of the text.
    lemma Scanned(from: nat)
      requires Valid() && from <= current && last > 0
      requires forall i :: from <= i < current ==> buffer[i] != '\n'
      ensures Searched(from)
    {
      var base := pos - last;
      forall i | from <= i < current
        ensures buffer[i] == text[base + i]
      {
      }
      assert buffer[from..current] == text[base + from..base + current];
      forall j | base + from <= j < At()
        ensures text[j] != '\n'
      {
        assert text[j] == buffer[j - base];
      }
      FindSkips(text, '\n', base + from, At());
    }

    lemma AtEnd()
      requires Valid() && last > 0 && current < BUFF_SIZE
      ensures current < last ==> buffer[current] == text[At()]
      ensures current == last ==> At() == |text| && |text| % BUFF_SIZE != 0 && buffer[current] == LeftOver(text)
    {
    }

    // The loops of readGraph: rows until the end of the file. They end well
    // exactly if the text does, and then have seen all of its lines but the
    // empty ones.
    method ReadRows() returns (ok: bool, rows: seq<string>)
      requires Valid() && At() == 0 && !eof
      modifies this`pos, this`current, this`last, this`eof, buffer
      ensures ok <==> EndsWell(text)
      ensures ok && Terminated(text) ==> rows == NonEmpty(Lines(text, 0))
    {
      ghost var all := NonEmpty(Lines(text, 0));
      rows := [];
      while !eof
        invariant Going(rows, all)
        decreases Left(), BUFF_SIZE - current
      {
        ok, rows := ReadNext(rows, all);
        if !ok {
          return;
        }
      }
      return true, rows;
    }

    // What has been read when `rows` are there.
    ghost predicate Going(rows: seq<string>, all: seq<string>)
      reads this, buffer
    {
      if eof then EndsWell(text) && (Terminated(text) ==> rows == all)
      else if Valid() then all == rows + NonEmpty(Lines(text, At()))
      else Lost() && last > 0 && !EndsWell(text)
    }

    ghost function Left(): nat
      reads this, buffer
    {
      if eof then 0 else if Valid() then |text| - At() + 2 else 1
    }

    method ReadNext(before: seq<string>, ghost all: seq<string>) returns (ok: bool, rows: seq<string>)
      requires Going(before, all) && !eof
      modifies this`pos, this`current, this`last, this`eof, buffer
      ensures if ok then Going(rows, all) else !EndsWell(text)
      ensures ok ==> Left() < old(Left()) || (Left() == old(Left()) && current > old(current))
      ensures ok && !eof ==> current <= BUFF_SIZE
    {
      ghost var valid, p := Valid(), pos - last + current;
      var row;
      rows := before;
      ok, row := ReadLine("");
      if ok {
        if valid {
          NextLine(p, row, rows);
        }
        if row != "" {
          rows := rows + [row];
        }
      }
    }

    lemma NextLine(p: nat, row: string, rows: seq<string>)
      requires p <= |text| && LineAt("", p).ok && LineAt("", p).row == row
      ensures var q := Find(text, '\n', p);
              if q < |text| then rows + NonEmpty(Lines(text, p)) == (if row == "" then rows else rows + [row]) + NonEmpty(Lines(text, q + 1))
              else Terminated(text) ==> p == |text| && NonEmpty(Lines(text, p)) == [] && (EndsWell(text) ==> row == "")
    {
      var q := Find(text, '\n', p);
      if q < |text| {
        assert row == text[p..q];
        assert Lines(text, p)[1..] == Lines(text, q + 1);
      } else if Terminated(text) && p < |text| {
        FindAtMost(text, '\n', p, |text| - 1);
      }
    }
  }

  // What a call of readLine leads to.
  datatype Read = Read(ok: bool, eof: bool, row: string)
}
