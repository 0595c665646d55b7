/** A chain of log processors: a message travels down the chain until a processor of its level prints it. */
module ChainOfResponsibility {

  const INFO := 1
  const DEBUG := 2
  const ERROR := 3

  /** The line each forwarding step prints. */
  const GOING_NEXT := "going next"

  /** A link of the chain: the plain base processor, which only forwards, or one of the three level processors. */
  datatype Processor =
    | Forwarder
    | InfoLogProcessor
    | DebugLogProcessor
    | ErrorLogProcessor

  /** The prefixes printed for levels INFO, DEBUG and ERROR, in that order. */
  const LEVEL_PREFIXES := ["INFO ", "DEBUG ", "ERROR "]

  /** Whether processor `p` prints a message of level `logLevel` itself instead of forwarding it.
      Only a level processor handles anything, only one of the three levels, and it prints
      that level's own prefix. */
  predicate Handles(p: Processor, logLevel: int)
    ensures Handles(p, logLevel) ==> !p.Forwarder? && INFO <= logLevel <= ERROR
    ensures Handles(p, logLevel) ==> Prefix(p) == LEVEL_PREFIXES[logLevel - 1]
  {
    match p
    case Forwarder => false
    case InfoLogProcessor => logLevel == INFO
    case DebugLogProcessor => logLevel == DEBUG
    case ErrorLogProcessor => logLevel == ERROR
  }

  /** The prefix a level processor prints before the message: empty only for the plain
      processor, and otherwise a level name followed by a space. */
  function Prefix(p: Processor): (prefix: string)
    ensures prefix == "" <==> p.Forwarder?
    ensures prefix != "" ==> prefix[|prefix| - 1] == ' ' && prefix in LEVEL_PREFIXES
  {
    match p
    case Forwarder => ""
    case InfoLogProcessor => "INFO "
    case DebugLogProcessor => "DEBUG "
    case ErrorLogProcessor => "ERROR "
  }

  /** `n` forwarding lines. */
  function GoingNext(n: nat): (lines: seq<string>)
    ensures |lines| == n
    ensures forall i | 0 <= i < n :: lines[i] == GOING_NEXT
  {
    seq(n, _ => GOING_NEXT)
  }

  /** `log` called on `chain[0]`: the lines printed while the message travels down the chain.
      There are no more lines than processors, and every line but the last is a forwarding line. */
  function Log(chain: seq<Processor>, logLevel: int, message: string): (lines: seq<string>)
    requires chain != []
    ensures |lines| <= |chain|
    ensures forall i | 0 <= i < |lines| - 1 :: lines[i] == GOING_NEXT
    decreases |chain|
  {
    if Handles(chain[0], logLevel) then [Prefix(chain[0]) + message]
    else if |chain| == 1 then []
    else [GOING_NEXT] + Log(chain[1..], logLevel, message)
  }

  /** Each level processor handles its own level and no other; the plain processor handles none. */
  lemma HandlesOwnLevelOnly(p: Processor, logLevel: int)
    ensures p.InfoLogProcessor? ==> (Handles(p, logLevel) <==> logLevel == 1)
    ensures p.DebugLogProcessor? ==> (Handles(p, logLevel) <==> logLevel == 2)
    ensures p.ErrorLogProcessor? ==> (Handles(p, logLevel) <==> logLevel == 3)
    ensures p.Forwarder? ==> !Handles(p, logLevel)
  {
  }

  /** The first processor whose level matches prints the message, after one forwarding
      line per processor before it; nothing after it sees the message. */
  lemma {:induction false} LogHandledByFirstMatch(chain: seq<Processor>, logLevel: int, message: string, k: nat)
    requires k < |chain| && Handles(chain[k], logLevel)
    requires forall j | 0 <= j < k :: !Handles(chain[j], logLevel)
    ensures Log(chain, logLevel, message) == GoingNext(k) + [Prefix(chain[k]) + message]
    decreases k
  {
    if k > 0 {
      LogHandledByFirstMatch(chain[1..], logLevel, message, k - 1);
      assert [GOING_NEXT] + GoingNext(k - 1) == GoingNext(k);
    }
  }

  /** A message no processor handles is forwarded to the end of the chain and dropped there. */
  lemma {:induction false} LogDroppedWhenUnmatched(chain: seq<Processor>, logLevel: int, message: string)
    requires chain != []
    requires forall j | 0 <= j < |chain| :: !Handles(chain[j], logLevel)
    ensures Log(chain, logLevel, message) == GoingNext(|chain| - 1)
    decreases |chain|
  {
    if |chain| > 1 {
      LogDroppedWhenUnmatched(chain[1..], logLevel, message);
      assert [GOING_NEXT] + GoingNext(|chain| - 2) == GoingNext(|chain| - 1);
    }
  }

  /** The demonstration: an ERROR message sent to Info -> Debug -> Error. */
  lemma DemoErrorMessage()
    ensures Log([InfoLogProcessor, DebugLogProcessor, ErrorLogProcessor], ERROR, "get error")
         == [GOING_NEXT, GOING_NEXT, "ERROR get error"]
  {
    LogHandledByFirstMatch([InfoLogProcessor, DebugLogProcessor, ErrorLogProcessor], ERROR, "get error", 2);
    assert GoingNext(2) == [GOING_NEXT, GOING_NEXT];
    assert "ERROR " + "get error" == "ERROR get error";
  }
}
