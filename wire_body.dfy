/** The request body of a bulk: every record's wire text followed by a
    newline, in order (lib/logzio-nodejs.js, `_messagesToBody`), and its
    `content-length`, the UTF-8 byte length of the body. The serialiser
    (`JSON.stringify` with its fallback) is not modelled; it is a
    parameter `ser` of type `Record -> string`. */
module WireBody {
  import opened Records

  /** The body of `msgs`: the wire text of each record and a "\n", in order. */
  function Body(msgs: seq<Record>, ser: Record -> string): string
    decreases |msgs|
  {
    if msgs == [] then "" else Body(msgs[..|msgs| - 1], ser) + ser(msgs[|msgs| - 1]) + "\n"
  }

  /** `_messagesToBody`: builds the body in a loop, appending one line per record. */
  method MessagesToBody(msgs: seq<Record>, ser: Record -> string) returns (body: string)
    ensures body == Body(msgs, ser)
  {
    body := "";
    var i := 0;
    while i < |msgs|
      invariant 0 <= i <= |msgs|
      invariant body == Body(msgs[..i], ser)
    {
      assert msgs[..i + 1][..i] == msgs[..i];
      body := body + ser(msgs[i]) + "\n";
      i := i + 1;
    }
    assert msgs[..i] == msgs;
  }

  /** The body of a concatenation is the concatenation of the bodies. */
  lemma {:induction false} BodyAppend(a: seq<Record>, b: seq<Record>, ser: Record -> string)
    ensures Body(a + b, ser) == Body(a, ser) + Body(b, ser)
    decreases |b|
  {
    if b == [] {
      assert a + b == a;
    } else {
      var b' := b[..|b| - 1];
      assert (a + b)[..|a + b| - 1] == a + b';
      BodyAppend(a, b', ser);
    }
  }

  /** The body read from the front: the first record's line, then the rest. */
  lemma BodyCons(m: Record, rest: seq<Record>, ser: Record -> string)
    ensures Body([m] + rest, ser) == ser(m) + "\n" + Body(rest, ser)
  {
    BodyAppend([m], rest, ser);
    assert [m][..0] == [];
  }

  /** Sum of `|ser(m)| + 1` over the records. */
  function LineLengths(msgs: seq<Record>, ser: Record -> string): nat {
    if msgs == [] then 0 else |ser(msgs[0])| + 1 + LineLengths(msgs[1..], ser)
  }

  /** The body's length is the sum of the line lengths, one newline per record;
      in particular the empty bulk has the empty body. */
  lemma {:induction false} BodyLength(msgs: seq<Record>, ser: Record -> string)
    ensures |Body(msgs, ser)| == LineLengths(msgs, ser)
    ensures msgs == [] <==> Body(msgs, ser) == ""
    decreases |msgs|
  {
    if msgs != [] {
      BodyCons(msgs[0], msgs[1..], ser);
      assert [msgs[0]] + msgs[1..] == msgs;
      BodyLength(msgs[1..], ser);
    }
  }

  /** True when no record serialises to text containing a newline
      (`JSON.stringify` escapes newlines inside strings). */
  ghost predicate NoNewlines(msgs: seq<Record>, ser: Record -> string) {
    forall i :: 0 <= i < |msgs| ==> '\n' !in ser(msgs[i])
  }

  /** Number of newline characters in a string. */
  function Newlines(s: string): nat {
    if s == "" then 0 else (if s[0] == '\n' then 1 else 0) + Newlines(s[1..])
  }

  lemma {:induction false} NewlinesAppend(s: string, t: string)
    ensures Newlines(s + t) == Newlines(s) + Newlines(t)
    decreases |s|
  {
    if s == "" {
      assert s + t == t;
    } else {
      assert (s + t)[1..] == s[1..] + t;
      NewlinesAppend(s[1..], t);
    }
  }

  lemma {:induction false} NoNewlineCount(s: string)
    requires '\n' !in s
    ensures Newlines(s) == 0
    decreases |s|
  {
    if s != "" {
      assert forall c :: c in s[1..] ==> c in s;
      NoNewlineCount(s[1..]);
    }
  }

  /** With a serialiser that emits no newline, the body holds exactly one
      newline terminator per record. */
  lemma {:induction false} BodyNewlines(msgs: seq<Record>, ser: Record -> string)
    requires NoNewlines(msgs, ser)
    ensures Newlines(Body(msgs, ser)) == |msgs|
    decreases |msgs|
  {
    if msgs != [] {
      var init := msgs[..|msgs| - 1];
      assert NoNewlines(init, ser) by {
        forall i | 0 <= i < |init| ensures '\n' !in ser(init[i]) {
          assert init[i] == msgs[i];
        }
      }
      BodyNewlines(init, ser);
      NoNewlineCount(ser(msgs[|msgs| - 1]));
      NewlinesAppend(Body(init, ser), ser(msgs[|msgs| - 1]));
      NewlinesAppend(Body(init, ser) + ser(msgs[|msgs| - 1]), "\n");
    }
  }

  /** Index of the first newline in `s`, or `|s|` if there is none. */
  function LineEnd(s: string): (j: nat)
    ensures j <= |s|
    ensures j < |s| ==> s[j] == '\n'
    ensures forall i :: 0 <= i < j ==> s[i] != '\n'
  {
    if s == "" || s[0] == '\n' then 0 else 1 + LineEnd(s[1..])
  }

  /** Splits newline-terminated text into its lines, as the receiving end
      reads the body (a last line without a terminator is kept too). */
  function Lines(s: string): seq<string>
    decreases |s|
  {
    if s == "" then []
    else
      var j := LineEnd(s);
      if j == |s| then [s] else [s[..j]] + Lines(s[j + 1..])
  }

  lemma LineEndOf(t: string, rest: string)
    requires '\n' !in t
    ensures LineEnd(t + "\n" + rest) == |t|
  {
    var s := t + "\n" + rest;
    assert s[|t|] == '\n';
    forall i | 0 <= i < |t| ensures s[i] != '\n' {
      assert s[i] == t[i] && t[i] in t;
    }
  }

  /** Round trip: with a serialiser that emits no newline, splitting the
      body into lines gives back each record's wire text, in order. */
  lemma {:induction false} LinesOfBody(msgs: seq<Record>, ser: Record -> string)
    requires NoNewlines(msgs, ser)
    ensures Lines(Body(msgs, ser)) == seq(|msgs|, i requires 0 <= i < |msgs| => ser(msgs[i]))
    decreases |msgs|
  {
    if msgs == [] {
    } else {
      var m, rest := msgs[0], msgs[1..];
      assert [m] + rest == msgs;
      BodyCons(m, rest, ser);
      var s := Body(msgs, ser);
      assert '\n' !in ser(msgs[0]);
      LineEndOf(ser(m), Body(rest, ser));
      assert s[..|ser(m)|] == ser(m);
      assert s[|ser(m)| + 1..] == Body(rest, ser);
      assert NoNewlines(rest, ser) by {
        forall i | 0 <= i < |rest| ensures '\n' !in ser(rest[i]) {
          assert rest[i] == msgs[i + 1];
        }
      }
      LinesOfBody(rest, ser);
    }
  }

  /** Bytes of one Unicode scalar value in UTF-8. */
  function Utf8Width(c: char): nat {
    var v := c as int;
    if v < 0x80 then 1 else if v < 0x800 then 2 else if v < 0x1_0000 then 3 else 4
  }

  /** `Buffer.byteLength(s)`: the UTF-8 length of `s`. */
  function Utf8Length(s: string): nat {
    if s == "" then 0 else Utf8Width(s[0]) + Utf8Length(s[1..])
  }

  lemma {:induction false} Utf8LengthAppend(s: string, t: string)
    ensures Utf8Length(s + t) == Utf8Length(s) + Utf8Length(t)
    decreases |s|
  {
    if s == "" {
      assert s + t == t;
    } else {
      assert (s + t)[1..] == s[1..] + t;
      Utf8LengthAppend(s[1..], t);
    }
  }

  /** The byte length lies between the character count and four times it,
      and equals the character count exactly when the text is ASCII. */
  lemma {:induction false} Utf8LengthBounds(s: string)
    ensures |s| <= Utf8Length(s) <= 4 * |s|
    ensures Utf8Length(s) == |s| <==> forall i :: 0 <= i < |s| ==> s[i] as int < 0x80
    decreases |s|
  {
    if s != "" {
      Utf8LengthBounds(s[1..]);
      assert forall i :: 1 <= i < |s| ==> s[i] == s[1..][i - 1];
    }
  }

  /** Sum of the UTF-8 lengths of the records' wire texts, plus one byte per newline. */
  function LineBytes(msgs: seq<Record>, ser: Record -> string): nat {
    if msgs == [] then 0 else Utf8Length(ser(msgs[0])) + 1 + LineBytes(msgs[1..], ser)
  }

  /** The `content-length` of a bulk is the sum over its records of the
      UTF-8 length of the record's wire text plus one for its newline. */
  lemma {:induction false} ContentLength(msgs: seq<Record>, ser: Record -> string)
    ensures Utf8Length(Body(msgs, ser)) == LineBytes(msgs, ser)
    decreases |msgs|
  {
    if msgs != [] {
      BodyCons(msgs[0], msgs[1..], ser);
      assert [msgs[0]] + msgs[1..] == msgs;
      Utf8LengthAppend(ser(msgs[0]), "\n" + Body(msgs[1..], ser));
      Utf8LengthAppend("\n", Body(msgs[1..], ser));
      assert ser(msgs[0]) + "\n" + Body(msgs[1..], ser) == ser(msgs[0]) + ("\n" + Body(msgs[1..], ser));
      ContentLength(msgs[1..], ser);
    }
  }
}
