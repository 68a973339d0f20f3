/** The register transport the driver talks to (bms_reg_read, bms_reg_write,
    bms_delay), seen as an environment that answers each request, together
    with the trace of every transaction the driver has issued. */
module Transport {
  import opened Registers

  /** A bus transaction as the driver asks for it; every transfer is two bytes. */
  datatype Request = ReadReq(reg: bv16) | WriteReq(reg: bv16, value: bv16)

  /** The environment's answer: the status the transport returns and, for a
      read, the 16-bit word it delivers. */
  datatype Reply = Reply(status: Error, value: bv16)

  /** One entry of the transaction trace. */
  datatype Event =
    | Read(reg: bv16, value: bv16, status: Error)
    | Write(reg: bv16, value: bv16, status: Error)
    | Reset
    | Delay(ms: nat)

  /** The environment: the answer to a request may depend on everything
      that happened on the bus before it. */
  type Environment = (seq<Event>, Request) -> Reply

  /** The trace entry of a read of `reg` issued after history `h`. */
  function ReadEvent(env: Environment, h: seq<Event>, reg: bv16): (e: Event)
    ensures e.Read? && e.reg == reg
  {
    var r := env(h, ReadReq(reg));
    Read(reg, r.value, r.status)
  }

  /** The trace entry of a write of `value` to `reg` issued after history `h`. */
  function WriteEvent(env: Environment, h: seq<Event>, reg: bv16, value: bv16): (e: Event)
    ensures e.Write? && e.reg == reg && e.value == value
  {
    Write(reg, value, env(h, WriteReq(reg, value)).status)
  }

  /** What was asked for, without what the environment answered. */
  datatype Step = ReadStep(reg: bv16) | WriteStep(reg: bv16, value: bv16) | ResetStep | DelayStep(ms: nat)

  function StepOf(e: Event): (s: Step) {
    match e
    case Read(reg, _, _) => ReadStep(reg)
    case Write(reg, value, _) => WriteStep(reg, value)
    case Reset => ResetStep
    case Delay(ms) => DelayStep(ms)
  }

  /** The events ask for the first |es| steps of `protocol`, in order. */
  predicate FollowsProtocol(es: seq<Event>, protocol: seq<Step>) {
    |es| <= |protocol| && forall k :: 0 <= k < |es| ==> StepOf(es[k]) == protocol[k]
  }

  /** Some event of `es` asks for `step`. */
  predicate Issued(es: seq<Event>, step: Step) {
    exists k :: 0 <= k < |es| && StepOf(es[k]) == step
  }

  /** The bus: the environment that answers and the trace so far. */
  class Bus {
    const env: Environment
    var trace: seq<Event>

    constructor (env: Environment)
      ensures this.env == env && trace == []
    {
      this.env := env;
      trace := [];
    }

    /** bms_reg_read(reg, &data, 2). */
    method RegRead(reg: bv16) returns (status: Error, value: bv16)
      modifies this
      ensures Read(reg, value, status) == ReadEvent(env, old(trace), reg)
      ensures trace == old(trace) + [Read(reg, value, status)]
    {
      var r := env(trace, ReadReq(reg));
      status, value := r.status, r.value;
      trace := trace + [Read(reg, value, status)];
    }

    /** bms_reg_write(reg, &value, 2). */
    method RegWrite(reg: bv16, value: bv16) returns (status: Error)
      modifies this
      ensures Write(reg, value, status) == WriteEvent(env, old(trace), reg, value)
      ensures trace == old(trace) + [Write(reg, value, status)]
    {
      status := env(trace, WriteReq(reg, value)).status;
      trace := trace + [Write(reg, value, status)];
    }

    /** bms_delay(ms); only the call is recorded. */
    method Wait(ms: nat)
      modifies this
      ensures trace == old(trace) + [Delay(ms)]
    {
      trace := trace + [Delay(ms)];
    }

    /** Records a call of bms_full_reset. */
    method NoteFullReset()
      modifies this
      ensures trace == old(trace) + [Reset]
    {
      trace := trace + [Reset];
    }
  }
}
