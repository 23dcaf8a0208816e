/**
 * The wire envelope `type,topic,payload`: `String.prototype.split` and
 * `Array.prototype.join` on the separator `,`, the decoder of `_multiplex`
 * and the encoder of `joinAndSend`.
 */
module Wire {
  import opened Wrappers

  const Separator: char := ','

  /**
   * `s.split(sep)`: the maximal separator-free pieces of `s`, in order. There is
   * always one more piece than there are separators (the empty string gives `[""]`).
   */
  function Split(s: string, sep: char): (parts: seq<string>)
    ensures |parts| == Occurrences(s, sep) + 1
    ensures forall i :: 0 <= i < |parts| ==> sep !in parts[i]
  {
    if s == [] then [[]]
    else
      var rest := Split(s[1..], sep);
      if s[0] == sep then [[]] + rest
      else [[s[0]] + rest[0]] + rest[1..]
  }

  /** Number of occurrences of `c` in `s`. */
  function Occurrences(s: string, c: char): nat {
    if s == [] then 0 else (if s[0] == c then 1 else 0) + Occurrences(s[1..], c)
  }

  /** `parts.join(sep)`: the empty array joins to the empty string. */
  function Join(parts: seq<string>, sep: char): string {
    if |parts| == 0 then []
    else if |parts| == 1 then parts[0]
    else parts[0] + [sep] + Join(parts[1..], sep)
  }

  /** Joining the pieces of a split gives back the original text. */
  lemma {:induction false} JoinSplit(s: string, sep: char)
    ensures Join(Split(s, sep), sep) == s
  {
    if s != [] {
      var rest := Split(s[1..], sep);
      JoinSplit(s[1..], sep);
      if s[0] == sep {
        assert Split(s, sep) == [[]] + rest;
        assert Join([[]] + rest, sep) == [] + [sep] + Join(rest, sep);
      } else {
        assert Split(s, sep) == [[s[0]] + rest[0]] + rest[1..];
        JoinPrepend(s[0], rest, sep);
      }
      assert [s[0]] + s[1..] == s;
    }
  }

  /** Prefixing a character to the first piece prefixes it to the join. */
  lemma JoinPrepend(c: char, parts: seq<string>, sep: char)
    requires |parts| >= 1
    ensures Join([[c] + parts[0]] + parts[1..], sep) == [c] + Join(parts, sep)
  {
    var longer := [[c] + parts[0]] + parts[1..];
    if |parts| > 1 {
      assert longer[1..] == parts[1..];
      assert Join(longer, sep) == ([c] + parts[0]) + [sep] + Join(parts[1..], sep);
    }
  }

  /** A separator-free text is a single piece. */
  lemma {:induction false} SplitPlain(a: string, sep: char)
    requires sep !in a
    ensures Split(a, sep) == [a]
  {
    if a != [] {
      SplitPlain(a[1..], sep);
      assert [a[0]] + a[1..] == a;
    }
  }

  /** Splitting `a,b` where `a` has no separator peels `a` off the front. */
  lemma {:induction false} SplitAfterPlain(a: string, sep: char, b: string)
    requires sep !in a
    ensures Split(a + [sep] + b, sep) == [a] + Split(b, sep)
  {
    if a == [] {
      assert a + [sep] + b == [sep] + b;
      assert ([sep] + b)[1..] == b;
    } else {
      var s := a + [sep] + b;
      assert s[0] == a[0] && s[1..] == a[1..] + [sep] + b;
      SplitAfterPlain(a[1..], sep, b);
      assert [a[0]] + a[1..] == a;
    }
  }

  /** Splitting a join of separator-free pieces gives back the pieces. */
  lemma {:induction false} SplitJoin(parts: seq<string>, sep: char)
    requires |parts| >= 1
    requires forall i :: 0 <= i < |parts| ==> sep !in parts[i]
    ensures Split(Join(parts, sep), sep) == parts
  {
    if |parts| == 1 {
      SplitPlain(parts[0], sep);
    } else {
      SplitJoin(parts[1..], sep);
      SplitAfterPlain(parts[0], sep, Join(parts[1..], sep));
      assert [parts[0]] + parts[1..] == parts;
    }
  }

  /** One inbound frame as `_multiplex` takes it apart; `None` stands for `undefined`. */
  datatype Frame = Frame(kind: string, topic: Option<string>, payload: string)

  /**
   * The decoder of `_multiplex`: the first piece is the type, the second (if any)
   * the topic, and the remaining pieces re-joined with `,` are the payload.
   */
  function Decode(data: string): (f: Frame)
    ensures f.topic.None? ==> f.payload == ""
    ensures Separator !in f.kind
    ensures f.topic.Some? ==> Separator !in f.topic.value
  {
    var msg := Split(data, Separator);
    var rest := if |msg| > 2 then msg[2..] else [];
    Frame(msg[0], if |msg| > 1 then Some(msg[1]) else None, Join(rest, Separator))
  }

  /** The encoder of `joinAndSend`: the arguments joined with `,`. */
  function Encode(fields: seq<string>): string {
    Join(fields, Separator)
  }

  /**
   * Decoding a three-field frame gives back its fields whenever type and topic
   * hold no comma; the payload may hold any number of commas.
   */
  lemma DecodeEncode(kind: string, topic: string, payload: string)
    requires Separator !in kind && Separator !in topic
    ensures Decode(Encode([kind, topic, payload])) == Frame(kind, Some(topic), payload)
  {
    var data := Encode([kind, topic, payload]);
    assert [kind, topic, payload][1..] == [topic, payload];
    assert [topic, payload][1..] == [payload];
    assert Join([payload], Separator) == payload;
    assert Join([topic, payload], Separator) == topic + [Separator] + payload;
    assert data == kind + [Separator] + (topic + [Separator] + payload);
    SplitAfterPlain(kind, Separator, topic + [Separator] + payload);
    SplitAfterPlain(topic, Separator, payload);
    var msg := Split(data, Separator);
    assert msg == [kind, topic] + Split(payload, Separator);
    JoinSplit(payload, Separator);
    if |msg| > 2 {
      assert msg[2..] == Split(payload, Separator);
    }
  }

  /** A two-field frame (`sub,topic`, `uns,topic`) decodes with the empty payload. */
  lemma DecodeEncodePair(kind: string, topic: string)
    requires Separator !in kind && Separator !in topic
    ensures Decode(Encode([kind, topic])) == Frame(kind, Some(topic), "")
  {
    assert [kind, topic][1..] == [topic];
    SplitJoin([kind, topic], Separator);
  }

  /** Conversely, a text with at least two commas re-encodes from its decoded fields. */
  lemma EncodeDecode(data: string)
    requires Occurrences(data, Separator) >= 2
    ensures var f := Decode(data); f.topic.Some? && Encode([f.kind, f.topic.value, f.payload]) == data
  {
    var msg := Split(data, Separator);
    var f := Decode(data);
    JoinSplit(data, Separator);
    assert msg == [msg[0], msg[1]] + msg[2..];
    assert [f.kind, f.topic.value, f.payload][1..] == [f.topic.value, f.payload];
    assert [f.topic.value, f.payload][1..] == [f.payload];
    assert msg[1..][1..] == msg[2..];
    assert Join(msg[1..], Separator) == msg[1] + [Separator] + Join(msg[2..], Separator);
    assert Join(msg, Separator) == msg[0] + [Separator] + Join(msg[1..], Separator);
    assert Join([f.payload], Separator) == f.payload;
    assert Join([f.topic.value, f.payload], Separator) == f.topic.value + [Separator] + f.payload;
  }
}
