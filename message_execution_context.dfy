/**
  The cursor a command's argument parsing keeps over the message text: an
  index that advances by each result's length, and the results recorded by name.
*/
module MessageContext {
  import opened Wrappers
  import opened Parsers

  /** `s.slice(start)` for a start that is not negative: empty once past the end. */
  function Slice(s: string, start: nat): (rest: string)
    ensures |rest| == if start <= |s| then |s| - start else 0
    ensures forall i :: 0 <= i < |rest| ==> rest[i] == s[start + i]
  {
    if start <= |s| then s[start..] else ""
  }

  /** Slicing twice is slicing once by the sum. */
  lemma SliceSlice(s: string, start: nat, more: nat)
    ensures Slice(Slice(s, start), more) == Slice(s, start + more)
  {
    var lhs, rhs := Slice(Slice(s, start), more), Slice(s, start + more);
    assert |lhs| == |rhs|;
    forall i | 0 <= i < |lhs| ensures lhs[i] == rhs[i] { }
  }

  /** The characters consumed by a run of results. */
  function SumLengths<V>(results: seq<ParseResult<V>>): nat {
    if results == [] then 0 else SumLengths(results[..|results| - 1]) + results[|results| - 1].length
  }

  lemma {:induction false} SumLengthsConcat<V>(a: seq<ParseResult<V>>, b: seq<ParseResult<V>>)
    ensures SumLengths(a + b) == SumLengths(a) + SumLengths(b)
  {
    if b != [] {
      assert (a + b)[..|a + b| - 1] == a + b[..|b| - 1];
      SumLengthsConcat(a, b[..|b| - 1]);
    } else {
      assert a + b == a;
    }
  }

  /**
    A parser that falls back on `generateDefaultOrNothing` and `parseNext`
    records the default: the consumed count stays where it was.
  */
  lemma DefaultConsumesNothing<V>(added: seq<ParseResult<Option<V>>>, options: ParseOptions<V>)
    requires GenerateDefaultOrNothing(options).Some?
    ensures var d := GenerateDefaultOrNothing(options).value;
      SumLengths(added + [ParseResult(Some(d.value), d.length)]) == SumLengths(added)
  {
    var d := GenerateDefaultOrNothing(options).value;
    var recorded := ParseResult(Some(d.value), d.length);
    SumLengthsConcat(added, [recorded]);
    assert [recorded][..0] == [];
  }

  /** `parseNext` throws when its parser finds nothing. */
  datatype ParseError = ParseFailure(name: string)

  class MessageExecutionContext<V> {
    /** `message.content` */
    const content: string
    /** `values`: the last value recorded under each name; `None` is `undefined`. */
    var values: map<string, Option<V>>
    /** `parseResults`: the last result recorded under each name. */
    var parseResults: map<string, ParseResult<Option<V>>>
    /** `_parseIndex` */
    var parseIndex: nat
    /** Every result added so far, oldest first. */
    ghost var added: seq<ParseResult<Option<V>>>

    /** The index is the number of characters all results so far consumed. */
    ghost predicate Valid()
      reads this
    {
      parseIndex == SumLengths(added)
    }

    constructor (content: string)
      ensures Valid() && this.content == content
      ensures values == map[] && parseResults == map[] && parseIndex == 0 && added == []
      ensures RemainingContent() == content
    {
      this.content := content;
      values := map[];
      parseResults := map[];
      parseIndex := 0;
      added := [];
    }

    /** `remainingContent`: the text from `parseIndex` on. */
    function RemainingContent(): (rest: string)
      reads this
      ensures |rest| == if parseIndex <= |content| then |content| - parseIndex else 0
      ensures forall i :: 0 <= i < |rest| ==> rest[i] == content[parseIndex + i]
    {
      Slice(content, parseIndex)
    }

    /**
      `addParseResult`: records the value and the result under `name`, replacing
      an earlier entry of that name, and moves the index past what was consumed.
    */
    method AddParseResult(name: string, result: ParseResult<Option<V>>)
      requires Valid()
      modifies this
      ensures Valid()
      ensures values == old(values)[name := result.value]
      ensures parseResults == old(parseResults)[name := result]
      ensures parseIndex == old(parseIndex) + result.length
      ensures added == old(added) + [result]
      ensures RemainingContent() == Slice(old(RemainingContent()), result.length)
    {
      SumLengthsConcat(added, [result]);
      assert [result][..0] == [];
      SliceSlice(content, parseIndex, result.length);
      values := values[name := result.value];
      parseResults := parseResults[name := result];
      parseIndex := parseIndex + result.length;
      added := added + [result];
    }

    /**
      `parseNext`: runs the parser on the remaining text. When it finds nothing
      the call fails and nothing is recorded; otherwise its result is recorded
      and its value returned.
    */
    method ParseNext(name: string, parser: Parser<V>) returns (r: Result<V, ParseError>)
      requires Valid()
      modifies this
      ensures Valid()
      ensures parser(old(RemainingContent())).None? ==>
        && r == Err(ParseFailure(name))
        && values == old(values) && parseResults == old(parseResults)
        && parseIndex == old(parseIndex) && added == old(added)
      ensures parser(old(RemainingContent())).Some? ==>
        var p := parser(old(RemainingContent())).value;
        && r == Ok(p.value)
        && values == old(values)[name := Some(p.value)]
        && parseResults == old(parseResults)[name := ParseResult(Some(p.value), p.length)]
        && parseIndex == old(parseIndex) + p.length
    {
      var result := parser(RemainingContent());
      if result.None? {
        return Err(ParseFailure(name));
      }
      AddParseResult(name, ParseResult(Some(result.value.value), result.value.length));
      r := Ok(result.value.value);
    }

    /**
      `parseOptionalNext`: as `parseNext`, except that when nothing parses it
      records an `undefined` value of length 0, so the index does not move.
    */
    method ParseOptionalNext(name: string, parser: Parser<V>) returns (v: Option<V>)
      requires Valid()
      modifies this
      ensures Valid()
      ensures parser(old(RemainingContent())).None? ==>
        && v.None?
        && values == old(values)[name := None]
        && parseResults == old(parseResults)[name := ParseResult(None, 0)]
        && parseIndex == old(parseIndex)
      ensures parser(old(RemainingContent())).Some? ==>
        var p := parser(old(RemainingContent())).value;
        && v == Some(p.value)
        && values == old(values)[name := Some(p.value)]
        && parseResults == old(parseResults)[name := ParseResult(Some(p.value), p.length)]
        && parseIndex == old(parseIndex) + p.length
    {
      var parsed := parser(RemainingContent());
      var result := match parsed
        case Some(p) => ParseResult(Some(p.value), p.length)
        case None => ParseResult(None, 0);
      AddParseResult(name, result);
      v := result.value;
    }
  }
}
