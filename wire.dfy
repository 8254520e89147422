/** The wire between the host and a guest: the envelope the manager's event
    handler sends (`internal/manager/manager.go`), how the block-logger guest
    splits and decodes it (`examples/plugins/block-logger/src/lib.rs`), and
    how the host reads the guest's one-byte verdict back. */
module Wire {
  import opened Wrappers
  import opened Text
  import BL = BlockLogger
  import PM = PluginManager
  import Guest

  /** The guest recovers the event type's bytes and the data from the
      envelope exactly when the event type holds no NUL character: a NUL
      would end the tag early. */
  lemma EnvelopeSplits(eventType: string, data: Bytes)
    ensures BL.SplitEnvelope(PM.Envelope(eventType, data)) == (Utf8(eventType), data) <==> '\0' !in eventType
  {
    var envelope := PM.Envelope(eventType, data);
    var tag := Utf8(eventType);
    Utf8Zero(eventType);
    if '\0' !in eventType {
      BL.FirstZeroIs(envelope, |tag|);
      assert envelope[..|tag|] == tag;
    } else {
      assert 0 !in BL.SplitEnvelope(envelope).0;
    }
  }

  /** An ASCII event type survives the trip through bytes. */
  lemma TagRoundTrip(eventType: string)
    requires Ascii(eventType)
    ensures BL.DecodeTag(Utf8(eventType)) == eventType
  {
    var tag := Utf8(eventType);
    Utf8Ascii(eventType);
    assert forall i :: 0 <= i < |tag| ==> tag[i] < 128 by {
      forall i | 0 <= i < |tag| ensures tag[i] < 128 {
        assert tag[i] as int == eventType[i] as int;
      }
    }
    var r := BL.DecodeTag(tag);
    forall i | 0 <= i < |eventType| ensures r[i] == eventType[i] {
      assert r[i] as int == eventType[i] as int;
    }
  }

  /** The host reads back the cancellation the guest encoded, whatever
      modifications follow the first byte. */
  lemma VerdictRoundTrip(res: BL.EventResult, json: BL.Json)
    ensures Guest.ParseEventResult(BL.EncodeResult(res, json)).cancelled == res.cancelled
  {
    var out := BL.EncodeResult(res, json);
    assert out[0] == 1 <==> res.cancelled;
  }

  /** From the host's side: dispatching an ASCII, NUL-free event type to the
      block logger comes back cancelled exactly when it is a block break
      whose payload decodes and whose block is protected; the statistics the
      guest keeps play no part in the verdict. */
  lemma BlockLoggerVerdict(m: BL.StatsMap, eventType: string, data: Bytes, json: BL.Json)
    requires Ascii(eventType) && '\0' !in eventType
    ensures var out := BL.EncodeResult(BL.HandleEffect(m, PM.Envelope(eventType, data), json).result, json);
      (Guest.ParseEventResult(out).cancelled
       <==> eventType == BL.BreakTag && json.decodeBreak(data).Some? && BL.IsProtected(json.decodeBreak(data).value.block.blockType))
  {
    EnvelopeSplits(eventType, data);
    TagRoundTrip(eventType);
    var effect := BL.HandleEffect(m, PM.Envelope(eventType, data), json);
    VerdictRoundTrip(effect.result, json);
    if eventType == BL.BreakTag && json.decodeBreak(data).Some? {
      assert effect == BL.BreakEffect(m, json.decodeBreak(data).value);
    }
  }
}
