/** The agent's control step (agent.py): two bounded rolling windows, the
    images sent to the vision model and the logs of its past decisions,
    updated around one call to the decision oracle. */
module Agent {
  import opened Options
  import opened Window

  /** How many recent images and log entries each request carries. */
  const NumImages: nat := 3
  const NumLogs: nat := 3

  /** The entry that seeds the log window so the first request has context. */
  const StartSentinel: string := "<START>"

  /** The closed set of movement commands a decision may carry. */
  datatype Command = Forward | Reverse | RotRight | RotLeft

  /** The wire name of each command in the structured result. */
  function CommandName(c: Command): (name: string)
    ensures name == "forward" || name == "reverse" || name == "rot_right" || name == "rot_left"
  {
    match c
    case Forward => "forward"
    case Reverse => "reverse"
    case RotRight => "rot_right"
    case RotLeft => "rot_left"
  }

  /** Validation of the `command` field: only the four literal names are
      accepted, anything else is rejected. */
  function ParseCommand(s: string): (r: Option<Command>)
    ensures r.Some? <==> s == "forward" || s == "reverse" || s == "rot_right" || s == "rot_left"
  {
    if s == "forward" then Some(Forward)
    else if s == "reverse" then Some(Reverse)
    else if s == "rot_right" then Some(RotRight)
    else if s == "rot_left" then Some(RotLeft)
    else None
  }

  /** Parsing inverts naming, and a name parses only to the command it names. */
  lemma CommandRoundTrip(c: Command, s: string)
    ensures ParseCommand(CommandName(c)) == Some(c)
    ensures ParseCommand(s) == Some(c) <==> s == CommandName(c)
  {
  }

  /** A decision: one command and a short note on the goal behind it. */
  datatype ResponseType = ResponseType(command: Command, notes: string)

  /** Decoding of a raw result into a decision; fails iff the command is not
      one of the four names. */
  function DecodeResponse(command: string, notes: string): (r: Option<ResponseType>)
    ensures r.Some? <==> ParseCommand(command).Some?
    ensures r.Some? ==> CommandName(r.value.command) == command && r.value.notes == notes
  {
    match ParseCommand(command)
    case None => None
    case Some(c) => Some(ResponseType(c, notes))
  }

  const JpegDataUrlPrefix: string := "data:image/jpeg;base64,"

  /** An image content part: a JPEG data URL at low detail. */
  datatype ImagePart = ImagePart(url: string, detail: string)

  function ImageFor(b64image: string): (part: ImagePart)
    ensures part.detail == "low"
    ensures |part.url| == |JpegDataUrlPrefix| + |b64image|
    ensures part.url[..|JpegDataUrlPrefix|] == JpegDataUrlPrefix && part.url[|JpegDataUrlPrefix|..] == b64image
  {
    ImagePart(JpegDataUrlPrefix + b64image, "low")
  }

  /** An item of the log window: the start sentinel text or a past decision. */
  datatype LogEntry = Text(text: string) | Decision(response: ResponseType)

  /** What one request to the oracle carries: the distance reading (absent
      when the sensor read failed), the log window and the image window. */
  datatype Context = Context(sensorDist: Option<real>, logs: seq<LogEntry>, images: seq<ImagePart>)

  /** The oracle's answer: a validated decision, or a raised error. */
  datatype Reply = Answered(data: ResponseType) | Failed(error: string)

  /** Every log entry ever produced: the sentinel, then each decision in the
      order it was returned. */
  function History(decisions: seq<ResponseType>): (h: seq<LogEntry>)
    ensures |h| == |decisions| + 1 && h[0] == Text(StartSentinel)
  {
    [Text(StartSentinel)] + seq(|decisions|, i requires 0 <= i < |decisions| => Decision(decisions[i]))
  }

  /** After the sentinel, the history lists the decisions in order. */
  lemma HistoryAt(decisions: seq<ResponseType>, i: int)
    requires 0 <= i < |decisions|
    ensures History(decisions)[i + 1] == Decision(decisions[i])
  {
  }

  lemma HistoryAppend(decisions: seq<ResponseType>, d: ResponseType)
    ensures History(decisions + [d]) == History(decisions) + [Decision(d)]
  {
    var a, b := History(decisions + [d]), History(decisions) + [Decision(d)];
    assert |a| == |b|;
    forall i | 0 <= i < |a| ensures a[i] == b[i] {
      if 0 < i < |a| - 1 {
        HistoryAt(decisions + [d], i - 1);
        HistoryAt(decisions, i - 1);
      } else if i == |a| - 1 {
        HistoryAt(decisions + [d], i - 1);
      }
    }
  }

  /** The sentinel stays in the log window until the third decision has been
      appended, and is gone from then on. */
  lemma SentinelEvictedAfterThreeDecisions(decisions: seq<ResponseType>)
    ensures Text(StartSentinel) in LastK(History(decisions), NumLogs) <==> |decisions| < NumLogs
  {
    var h := History(decisions);
    var w := LastK(h, NumLogs);
    if |decisions| < NumLogs {
      LastKAt(h, NumLogs, 0);
    } else {
      forall i | 0 <= i < |w| ensures w[i] != Text(StartSentinel) {
        LastKAt(h, NumLogs, i);
        HistoryAt(decisions, |h| - |w| + i - 1);
      }
    }
  }

  /** The module-level windows `images` and `logs` of agent.py. */
  class AgentState {
    var images: seq<ImagePart>
    var logs: seq<LogEntry>
    /** Every image ever appended, oldest first. */
    ghost var allImages: seq<ImagePart>
    /** Every decision ever appended, oldest first. */
    ghost var decisions: seq<ResponseType>

    /** Each window is exactly the most recent items of its history, so it
        never exceeds its capacity and the log window is never empty. */
    ghost predicate Valid()
      reads this
      ensures Valid() ==> |images| <= NumImages && 1 <= |logs| <= NumLogs
    {
      images == LastK(allImages, NumImages) &&
      logs == LastK(History(decisions), NumLogs)
    }

    /** The initial state: no images and only the sentinel in the logs. */
    constructor ()
      ensures Valid()
      ensures images == [] && logs == [Text(StartSentinel)]
      ensures allImages == [] && decisions == []
    {
      images := [];
      logs := [Text(StartSentinel)];
      allImages := [];
      decisions := [];
    }

    /** One step of the agent. The current image enters the image window
        first; the oracle then sees the logs as they were before this step
        together with the updated image window; a successful decision enters
        the log window, while a failure propagates with the logs unchanged. */
    method RunAgent(oracle: Context -> Reply, b64image: string, sensorDist: Option<real>)
      returns (sent: Context, reply: Reply)
      requires Valid()
      modifies this
      ensures Valid()
      ensures images == Push(old(images), ImageFor(b64image), NumImages)
      ensures allImages == old(allImages) + [ImageFor(b64image)]
      ensures sent == Context(sensorDist, old(logs), images)
      ensures reply == oracle(sent)
      ensures reply.Answered? ==>
                logs == Push(old(logs), Decision(reply.data), NumLogs) &&
                decisions == old(decisions) + [reply.data]
      ensures reply.Failed? ==> logs == old(logs) && decisions == old(decisions)
    {
      var part := ImageFor(b64image);
      AppendImage(part);
      sent := Context(sensorDist, logs, images);
      reply := oracle(sent);
      if reply.Answered? {
        AppendLog(reply.data);
      }
    }

    /** `images.append(part)`, then evict the head past `NumImages`. */
    method AppendImage(part: ImagePart)
      requires Valid()
      modifies this
      ensures Valid()
      ensures images == Push(old(images), part, NumImages)
      ensures allImages == old(allImages) + [part]
      ensures logs == old(logs) && decisions == old(decisions)
    {
      PushLastK(allImages, part, NumImages);
      images := images + [part];
      if |images| > NumImages {
        images := images[1..];
      }
      allImages := allImages + [part];
    }

    /** `logs.append(d)`, then evict the head past `NumLogs`. */
    method AppendLog(d: ResponseType)
      requires Valid()
      modifies this
      ensures Valid()
      ensures logs == Push(old(logs), Decision(d), NumLogs)
      ensures decisions == old(decisions) + [d]
      ensures images == old(images) && allImages == old(allImages)
    {
      PushLastK(History(decisions), Decision(d), NumLogs);
      HistoryAppend(decisions, d);
      logs := logs + [Decision(d)];
      if |logs| > NumLogs {
        logs := logs[1..];
      }
      decisions := decisions + [d];
    }
  }

  /** Four successful steps from the initial state: the first three requests
      carry the sentinel, the fourth does not. */
  method SentinelScenario(answer: ResponseType, frames: seq<string>) returns (contexts: seq<Context>)
    requires |frames| == 4
    ensures |contexts| == 4
    ensures forall i :: 0 <= i < 3 ==> Text(StartSentinel) in contexts[i].logs
    ensures Text(StartSentinel) !in contexts[3].logs
    ensures contexts[3].logs == [Decision(answer), Decision(answer), Decision(answer)]
  {
    var agent := new AgentState();
    var oracle := (c: Context) => Answered(answer);
    var s, d := Text(StartSentinel), Decision(answer);
    var c0, r0 := agent.RunAgent(oracle, frames[0], None);
    assert c0.logs == [s] && agent.logs == [s, d];
    var c1, r1 := agent.RunAgent(oracle, frames[1], None);
    assert c1.logs == [s, d] && agent.logs == [s, d, d];
    var c2, r2 := agent.RunAgent(oracle, frames[2], None);
    assert c2.logs == [s, d, d] && agent.logs == [d, d, d];
    var c3, r3 := agent.RunAgent(oracle, frames[3], None);
    assert c3.logs == [d, d, d];
    contexts := [c0, c1, c2, c3];
  }

  /** Four steps from the initial state, whatever the oracle answers: each
      request carries the images so far, and the fourth only the three most
      recent. */
  method ImageWindowScenario(oracle: Context -> Reply, frames: seq<string>) returns (contexts: seq<Context>)
    requires |frames| == 4
    ensures |contexts| == 4
    ensures contexts[0].images == [ImageFor(frames[0])]
    ensures contexts[1].images == [ImageFor(frames[0]), ImageFor(frames[1])]
    ensures contexts[2].images == [ImageFor(frames[0]), ImageFor(frames[1]), ImageFor(frames[2])]
    ensures contexts[3].images == [ImageFor(frames[1]), ImageFor(frames[2]), ImageFor(frames[3])]
  {
    var agent := new AgentState();
    var i0, i1, i2, i3 := ImageFor(frames[0]), ImageFor(frames[1]), ImageFor(frames[2]), ImageFor(frames[3]);
    var c0, r0 := agent.RunAgent(oracle, frames[0], None);
    assert c0.images == [i0];
    var c1, r1 := agent.RunAgent(oracle, frames[1], None);
    assert c1.images == [i0, i1];
    var c2, r2 := agent.RunAgent(oracle, frames[2], None);
    assert c2.images == [i0, i1, i2];
    var c3, r3 := agent.RunAgent(oracle, frames[3], None);
    assert c3.images == [i1, i2, i3];
    contexts := [c0, c1, c2, c3];
  }
}
