/**
  Translation routing: the loop the handler runs over the scraped blocks once a
  backend is chosen (the same loop serves both backends). Image blocks are kept
  as they are; every other block keeps its type and receives the backend's
  translation of its content; the first failing call ends the loop.
*/
module Router {
  import opened Wrappers

  /** One scraped block, the dict `{'type': kind, 'content': content}` */
  datatype Block = Block(kind: string, content: string)

  /** The type tag of blocks that are never translated */
  const ImageKind: string := "image"

  predicate IsImage(b: Block) {
    b.kind == ImageKind
  }

  /** A translation backend: the translated text, or the text of the exception it raised */
  type Translator = string -> Result<string, string>

  /** The outcome of routing, together with the texts handed to the backend, in call order */
  datatype Routed = Routed(result: Result<seq<Block>, string>, sent: seq<string>)

  /** The contents of the non-image blocks, in document order */
  function TextsToTranslate(blocks: seq<Block>): (r: seq<string>)
    ensures |r| <= |blocks|
  {
    if |blocks| == 0 then []
    else if IsImage(blocks[0]) then TextsToTranslate(blocks[1..])
    else [blocks[0].content] + TextsToTranslate(blocks[1..])
  }

  /** A text is sent exactly when it is the content of some non-image block */
  lemma {:induction false} TextsToTranslateMembers(blocks: seq<Block>)
    ensures forall i :: 0 <= i < |blocks| && !IsImage(blocks[i]) ==> blocks[i].content in TextsToTranslate(blocks)
    ensures forall s :: s in TextsToTranslate(blocks) ==>
              exists i :: 0 <= i < |blocks| && !IsImage(blocks[i]) && blocks[i].content == s
  {
    if |blocks| > 0 {
      var tail := blocks[1..];
      TextsToTranslateMembers(tail);
      forall i | 0 < i < |blocks|
        ensures blocks[i] == tail[i - 1]
      {
      }
      forall s | s in TextsToTranslate(tail)
        ensures exists i :: 0 <= i < |blocks| && !IsImage(blocks[i]) && blocks[i].content == s
      {
        var j :| 0 <= j < |tail| && !IsImage(tail[j]) && tail[j].content == s;
        assert blocks[j + 1] == tail[j];
      }
    }
  }

  /** `output` is `input` with images kept and every other block's content translated by `t` */
  ghost predicate TranslatesTo(input: seq<Block>, output: seq<Block>, t: Translator) {
    && |output| == |input|
    && forall i :: 0 <= i < |input| ==>
         if IsImage(input[i]) then output[i] == input[i]
         else output[i].kind == input[i].kind && t(input[i].content) == Success(output[i].content)
  }

  /** The backend accepts the content of every non-image block */
  ghost predicate AllAccepted(input: seq<Block>, t: Translator) {
    forall i :: 0 <= i < |input| && !IsImage(input[i]) ==> t(input[i].content).Success?
  }

  /** Block `k` is the first block whose translation fails */
  ghost predicate FirstFailureAt(input: seq<Block>, t: Translator, k: int) {
    && 0 <= k < |input|
    && !IsImage(input[k])
    && t(input[k].content).Failure?
    && AllAccepted(input[..k], t)
  }

  /** The routing loop as a left-to-right fold over the blocks */
  function Route(input: seq<Block>, t: Translator): (r: Routed)
    ensures r.result.Success? <==> AllAccepted(input, t)
    ensures r.result.Success? ==> TranslatesTo(input, r.result.value, t)
    ensures r.result.Success? ==> r.sent == TextsToTranslate(input)
  {
    if |input| == 0 then Routed(Success([]), [])
    else
      var b := input[0];
      if IsImage(b) then
        var rest := Route(input[1..], t);
        var result := if rest.result.Success? then Success([b] + rest.result.value) else rest.result;
        Tail(input, t);
        Routed(result, rest.sent)
      else
        match t(b.content)
        case Failure(e) => Routed(Failure(e), [b.content])
        case Success(text) =>
          var rest := Route(input[1..], t);
          var result := if rest.result.Success? then Success([Block(b.kind, text)] + rest.result.value) else rest.result;
          Tail(input, t);
          Routed(result, [b.content] + rest.sent)
  }

  /** How the specification predicates split off the first block */
  lemma Tail(input: seq<Block>, t: Translator)
    requires |input| > 0
    ensures AllAccepted(input, t) <==>
              (IsImage(input[0]) || t(input[0].content).Success?) && AllAccepted(input[1..], t)
    ensures forall out: seq<Block> :: |out| > 0 ==>
              (TranslatesTo(input, out, t) <==>
                 TranslatesTo(input[..1], out[..1], t) && TranslatesTo(input[1..], out[1..], t))
  {
    forall out: seq<Block> | |out| > 0
      ensures TranslatesTo(input, out, t) <==>
                TranslatesTo(input[..1], out[..1], t) && TranslatesTo(input[1..], out[1..], t)
    {
      if TranslatesTo(input[..1], out[..1], t) && TranslatesTo(input[1..], out[1..], t) {
        forall i | 0 <= i < |input|
          ensures if IsImage(input[i]) then out[i] == input[i]
                  else out[i].kind == input[i].kind && t(input[i].content) == Success(out[i].content)
        {
          if i > 0 {
            assert input[1..][i - 1] == input[i] && out[1..][i - 1] == out[i];
          } else {
            assert input[..1][0] == input[0] && out[..1][0] == out[0];
          }
        }
      }
    }
    if (IsImage(input[0]) || t(input[0].content).Success?) && AllAccepted(input[1..], t) {
      forall i | 0 <= i < |input| && !IsImage(input[i])
        ensures t(input[i].content).Success?
      {
        if i > 0 {
          assert input[1..][i - 1] == input[i];
        }
      }
    }
  }

  /** Splitting the input splits the texts sent to the backend */
  lemma {:induction false} TextsAppend(a: seq<Block>, b: seq<Block>)
    ensures TextsToTranslate(a + b) == TextsToTranslate(a) + TextsToTranslate(b)
  {
    if |a| == 0 {
      assert a + b == b;
    } else {
      assert (a + b)[1..] == a[1..] + b;
      TextsAppend(a[1..], b);
    }
  }

  /** A failure at block `k` aborts routing there: the error is that call's error and
      no block after `k` reaches the backend */
  lemma {:induction false} RouteStopsAtFirstFailure(input: seq<Block>, t: Translator, k: int)
    requires FirstFailureAt(input, t, k)
    ensures Route(input, t) == Routed(Failure(t(input[k].content).error), TextsToTranslate(input[..k + 1]))
  {
    if k == 0 {
      assert input[..1] == [input[0]];
    } else {
      assert input[0] == input[..k][0];
      assert FirstFailureAt(input[1..], t, k - 1) by {
        assert input[1..][..k - 1] == input[..k][1..];
        Tail(input[..k], t);
      }
      RouteStopsAtFirstFailure(input[1..], t, k - 1);
      assert input[..k + 1] == [input[0]] + input[1..][..k];
      TextsAppend([input[0]], input[1..][..k]);
    }
  }

  /** When some block is refused, there is a first such block */
  lemma {:induction false} FirstFailureExists(input: seq<Block>, t: Translator)
    requires !AllAccepted(input, t)
    ensures exists k :: FirstFailureAt(input, t, k)
  {
    Tail(input, t);
    if IsImage(input[0]) || t(input[0].content).Success? {
      FirstFailureExists(input[1..], t);
      var k :| FirstFailureAt(input[1..], t, k);
      assert input[1..][..k] == input[..k + 1][1..];
      Tail(input[..k + 1], t);
      assert FirstFailureAt(input, t, k + 1);
    } else {
      assert FirstFailureAt(input, t, 0);
    }
  }

  /** The translated document is determined by the input and the backend:
      any output meeting the specification is the one routing returns */
  lemma {:induction false} TranslationIsUnique(input: seq<Block>, output: seq<Block>, t: Translator)
    requires TranslatesTo(input, output, t)
    ensures Route(input, t).result == Success(output)
  {
    if |input| > 0 {
      Tail(input, t);
      TranslationIsUnique(input[1..], output[1..], t);
      assert output == [output[0]] + output[1..];
    }
  }

  /** One more block of the input: what it adds to the texts sent and to the accepted prefix */
  lemma Extend(input: seq<Block>, i: int, t: Translator)
    requires 0 <= i < |input|
    ensures TextsToTranslate(input[..i + 1]) ==
            TextsToTranslate(input[..i]) + (if IsImage(input[i]) then [] else [input[i].content])
    ensures AllAccepted(input[..i], t) && !IsImage(input[i]) && t(input[i].content).Failure? ==>
              FirstFailureAt(input, t, i)
    ensures AllAccepted(input[..i], t) && (IsImage(input[i]) || t(input[i].content).Success?) ==>
              AllAccepted(input[..i + 1], t)
  {
    assert input[..i + 1] == input[..i] + [input[i]];
    TextsAppend(input[..i], [input[i]]);
  }

  /** Appending the routed form of block `i` extends a translation of the first `i` blocks */
  lemma ExtendTranslation(input: seq<Block>, i: int, out: seq<Block>, next: Block, t: Translator)
    requires 0 <= i < |input|
    requires TranslatesTo(input[..i], out, t)
    requires if IsImage(input[i]) then next == input[i]
             else next.kind == input[i].kind && t(input[i].content) == Success(next.content)
    ensures TranslatesTo(input[..i + 1], out + [next], t)
  {
    assert forall j :: 0 <= j < i ==> input[..i + 1][j] == input[..i][j];
  }

  /** The routing loop as written: append each block, return at the first failure */
  method RouteLoop(input: seq<Block>, t: Translator) returns (result: Result<seq<Block>, string>, sent: seq<string>)
    ensures result.Success? <==> AllAccepted(input, t)
    ensures result.Success? ==> TranslatesTo(input, result.value, t) && sent == TextsToTranslate(input)
    ensures Routed(result, sent) == Route(input, t)
  {
    var out: seq<Block> := [];
    sent := [];
    var i := 0;
    while i < |input|
      invariant 0 <= i <= |input|
      invariant TranslatesTo(input[..i], out, t)
      invariant AllAccepted(input[..i], t)
      invariant sent == TextsToTranslate(input[..i])
    {
      var b := input[i];
      Extend(input, i, t);
      if !IsImage(b) {
        var r := t(b.content);
        sent := sent + [b.content];
        if r.Failure? {
          RouteStopsAtFirstFailure(input, t, i);
          return Failure(r.error), sent;
        }
        ExtendTranslation(input, i, out, Block(b.kind, r.value), t);
        out := out + [Block(b.kind, r.value)];
      } else {
        ExtendTranslation(input, i, out, b, t);
        out := out + [b];
      }
      i := i + 1;
    }
    assert input[..i] == input;
    TranslationIsUnique(input, out, t);
    return Success(out), sent;
  }
}
