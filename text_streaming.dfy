/**
 * How the streaming cycle turns generated token ids into a text chunk: every token is put into the
 * streamer, whose callback overwrites lastStreamerCallbackOutput, and that field is appended to the
 * chunk after every put.
 */
module TextStreaming {
  import opened Wrappers
  import opened LlmTypes

  /** lastStreamerCallbackOutput after the streamer may have invoked its callback. */
  function CallbackOutput(callback: Option<string>, previous: string): (output: string)
    ensures callback.Some? ==> output == callback.value
    ensures callback.None? ==> output == previous
  {
    match callback
    case Some(text) => text
    case None => previous
  }

  /** The streamer's history, lastStreamerCallbackOutput and the chunk text after feeding tokens. */
  datatype Fed = Fed(pushed: seq<Token>, last: string, text: string)

  /** Feeds `ids` in order to a streamer that has already been given `pushed`. */
  function Feed(onPut: seq<Token> -> Option<string>, pushed: seq<Token>, last: string, ids: seq<Token>): (r: Fed)
    ensures r.pushed == pushed + ids
    ensures ids == [] ==> r.text == "" && r.last == last
    ensures ids != [] && onPut(pushed + ids).Some? ==> r.last == onPut(pushed + ids).value
    decreases |ids|
  {
    if ids == [] then
      Fed(pushed, last, "")
    else
      var before := Feed(onPut, pushed, last, ids[..|ids| - 1]);
      var history := before.pushed + [ids[|ids| - 1]];
      var output := CallbackOutput(onPut(history), before.last);
      assert history == pushed + ids by {
        assert ids == ids[..|ids| - 1] + [ids[|ids| - 1]];
      }
      Fed(history, output, before.text + output)
  }

  /** The streamer invokes its callback on every put of `ids`. */
  predicate CallsBackOnEveryPut(onPut: seq<Token> -> Option<string>, pushed: seq<Token>, ids: seq<Token>)
  {
    forall k :: 0 < k <= |ids| ==> onPut(pushed + ids[..k]).Some?
  }

  /** The fragment the streamer hands to its callback for each token, in token order. */
  function Fragments(onPut: seq<Token> -> Option<string>, pushed: seq<Token>, ids: seq<Token>): (parts: seq<string>)
    requires CallsBackOnEveryPut(onPut, pushed, ids)
    ensures |parts| == |ids|
  {
    seq(|ids|, k requires 0 <= k < |ids| => onPut(pushed + ids[..k + 1]).value)
  }

  function Concat(parts: seq<string>): string
  {
    if parts == [] then "" else Concat(parts[..|parts| - 1]) + parts[|parts| - 1]
  }

  /**
   * When the callback runs on every put, the chunk is the concatenation, in token order, of the
   * fragments the callback received, and lastStreamerCallbackOutput holds the last of them.
   */
  lemma {:induction false} FeedConcatenatesFragments(onPut: seq<Token> -> Option<string>, pushed: seq<Token>, last: string, ids: seq<Token>)
    requires CallsBackOnEveryPut(onPut, pushed, ids)
    ensures Feed(onPut, pushed, last, ids).text == Concat(Fragments(onPut, pushed, ids))
    ensures ids != [] ==> Feed(onPut, pushed, last, ids).last == Fragments(onPut, pushed, ids)[|ids| - 1]
    decreases |ids|
  {
    if ids != [] {
      var init := ids[..|ids| - 1];
      assert CallsBackOnEveryPut(onPut, pushed, init) by {
        forall k | 0 < k <= |init|
          ensures onPut(pushed + init[..k]).Some?
        {
          assert init[..k] == ids[..k];
        }
      }
      FeedConcatenatesFragments(onPut, pushed, last, init);
      var parts := Fragments(onPut, pushed, ids);
      assert ids[..|ids|] == ids;
      assert parts[..|parts| - 1] == Fragments(onPut, pushed, init) by {
        forall k | 0 <= k < |init|
          ensures parts[k] == Fragments(onPut, pushed, init)[k]
        {
          assert init[..k + 1] == ids[..k + 1];
        }
      }
    }
  }

  /**
   * Feeding two increments one after the other gives the same streamer state as feeding them in one
   * go, and the two chunks together are the chunk of the combined increment: streamed text is never
   * reordered, skipped or repeated between reads.
   */
  lemma {:induction false} FeedComposes(onPut: seq<Token> -> Option<string>, pushed: seq<Token>, last: string, first: seq<Token>, second: seq<Token>)
    ensures var a := Feed(onPut, pushed, last, first);
            var b := Feed(onPut, a.pushed, a.last, second);
            Feed(onPut, pushed, last, first + second) == Fed(b.pushed, b.last, a.text + b.text)
    decreases |second|
  {
    if second == [] {
      assert first + second == first;
    } else {
      var init := second[..|second| - 1];
      FeedComposes(onPut, pushed, last, first, init);
      assert (first + second)[..|first + second| - 1] == first + init;
      assert (first + second)[|first + second| - 1] == second[|second| - 1];
    }
  }

  /**
   * A put that does not invoke the callback leaves lastStreamerCallbackOutput as it was, so the
   * chunk repeats the previous fragment for that token.
   */
  lemma StaleOutputIsRepeated(onPut: seq<Token> -> Option<string>, pushed: seq<Token>, last: string, token: Token)
    requires onPut(pushed + [token]).None?
    ensures Feed(onPut, pushed, last, [token]).text == last
  {
    assert [token][..0] == [];
  }
}
