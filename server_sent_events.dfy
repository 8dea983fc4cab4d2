/** packIntoServerSideEventMessage and its inverse. */
module ServerSentEvents {
  import opened Wrappers

  /** Wraps one message as a server-sent event: "data: " before it, a blank line after it. */
  function Pack(message: string): (event: string)
    ensures |event| == |message| + 8
    ensures event[..6] == "data: " && event[|event| - 2..] == "\n\n"
  {
    "data: " + message + "\n\n"
  }

  /** Recovers the message of a single event by stripping the prefix and the terminator. */
  function Unpack(event: string): (message: Option<string>)
    ensures message.Some? ==> |message.value| + 8 == |event|
    ensures message.None? <==> |event| < 8 || event[..6] != "data: " || event[|event| - 2..] != "\n\n"
  {
    if |event| >= 8 && event[..6] == "data: " && event[|event| - 2..] == "\n\n" then
      Some(event[6..|event| - 2])
    else
      None
  }

  /** Unpacking a packed message gives the message back. */
  lemma UnpackPack(message: string)
    ensures Unpack(Pack(message)) == Some(message)
  {
    var event := Pack(message);
    assert event[6..|event| - 2] == message;
  }

  /** Every string Unpack accepts is the packing of what it returns. */
  lemma PackUnpack(event: string)
    ensures Unpack(event).Some? ==> Pack(Unpack(event).value) == event
  {
    if Unpack(event).Some? {
      assert event == event[..6] + event[6..|event| - 2] + event[|event| - 2..];
    }
  }

  /** Distinct messages give distinct events. */
  lemma PackInjective(m1: string, m2: string)
    ensures Pack(m1) == Pack(m2) ==> m1 == m2
  {
    UnpackPack(m1);
    UnpackPack(m2);
  }

  /** The last event of a complete streaming response. */
  function DoneEvent(): (event: string)
    ensures Unpack(event) == Some("[DONE]")
  {
    UnpackPack("[DONE]");
    Pack("[DONE]")
  }
}
