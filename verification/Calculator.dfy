/** The calculator's expression builder and its postfix stack evaluator. */
module Calculator {
  import opened Basics

  const I64_MIN: int := -0x8000_0000_0000_0000
  const I64_MAX: int := 0x7fff_ffff_ffff_ffff

  type I64 = v: int | I64_MIN <= v <= I64_MAX witness 0

  datatype Error =
    | Truncated | BadOpcode | StackOverflow | StackUnderflow | UnbalancedProgram
    | Arithmetic | DivByZero | BadAccountIndex | ShortAccount | ClockUnavailable
    | MissingReturnData | TransferFailed

  datatype Result<+T> = Ok(value: T) | Err(error: Error)

  const PUSH_LIT: Byte := 0x00
  const PUSH_ACC: Byte := 0x01
  const PUSH_CLOCK: Byte := 0x03
  const ADD: Byte := 0x10
  const SUB: Byte := 0x11
  const MUL: Byte := 0x12
  const DIV: Byte := 0x13
  const CALL: Byte := 0x20
  const TRANSFER: Byte := 0x30

  /** Slots of the operand stack. */
  const SLOTS: nat := 64

  // ---------------------------------------------------------------- Little-endian words

  /** `n` little-endian bytes of `x`, truncating. */
  function ToBytes(x: nat, n: nat): (bytes: seq<Byte>)
    ensures |bytes| == n
  {
    if n == 0 then [] else [x % 256] + ToBytes(x / 256, n - 1)
  }

  function FromBytes(bytes: seq<Byte>): nat {
    if bytes == [] then 0 else bytes[0] + 256 * FromBytes(bytes[1..])
  }

  function Pow256(n: nat): nat {
    if n == 0 then 1 else 256 * Pow256(n - 1)
  }

  lemma {:induction false} WordRoundTrip(x: nat, n: nat)
    requires x < Pow256(n)
    ensures FromBytes(ToBytes(x, n)) == x
  {
    if n > 0 {
      WordRoundTrip(x / 256, n - 1);
      assert ToBytes(x, n)[1..] == ToBytes(x / 256, n - 1);
    }
  }

  lemma {:induction false} WordBound(bytes: seq<Byte>)
    ensures FromBytes(bytes) < Pow256(|bytes|)
  {
    if bytes != [] {
      WordBound(bytes[1..]);
    }
  }

  /** Bytes are the encoding of the word they spell. */
  lemma {:induction false} BytesRoundTrip(bytes: seq<Byte>)
    ensures ToBytes(FromBytes(bytes), |bytes|) == bytes
  {
    if bytes != [] {
      BytesRoundTrip(bytes[1..]);
      assert FromBytes(bytes) % 256 == bytes[0] && FromBytes(bytes) / 256 == FromBytes(bytes[1..]);
    }
  }

  /** Two's complement of a signed 64-bit value. */
  function ToWord(v: I64): nat {
    if v >= 0 then v else v + 0x1_0000_0000_0000_0000
  }

  function FromWord(w: nat): (v: I64)
    requires w < 0x1_0000_0000_0000_0000
  {
    if w <= I64_MAX then w else w - 0x1_0000_0000_0000_0000
  }

  lemma Pow256Eight()
    ensures Pow256(8) == 0x1_0000_0000_0000_0000 && Pow256(2) == 0x1_0000
  {
  }

  function I64Bytes(v: I64): seq<Byte> {
    ToBytes(ToWord(v), 8)
  }

  /** The signed value of the first eight bytes. */
  function HeadI64(bytes: seq<Byte>): I64
    requires |bytes| >= 8
  {
    Pow256Eight();
    WordBound(bytes[..8]);
    FromWord(FromBytes(bytes[..8]))
  }

  lemma I64RoundTrip(v: I64, rest: seq<Byte>)
    ensures HeadI64(I64Bytes(v) + rest) == v
  {
    Pow256Eight();
    WordRoundTrip(ToWord(v), 8);
    assert (I64Bytes(v) + rest)[..8] == I64Bytes(v);
  }

  // ---------------------------------------------------------------- Expressions

  datatype Op = Plus | Minus | Times | Over

  datatype Expr =
    | Lit(value: I64)
    | Acc(index: Byte)
    | Clock
    | Cpi(body: Expr)
    | Binary(op: Op, left: Expr, right: Expr)

  function Opcode(op: Op): Byte {
    match op
    case Plus => ADD
    case Minus => SUB
    case Times => MUL
    case Over => DIV
  }

  /** The postfix bytes of an expression. */
  function Lower(e: Expr): seq<Byte> {
    match e
    case Lit(v) => [PUSH_LIT] + I64Bytes(v)
    case Acc(i) => [PUSH_ACC, i]
    case Clock => [PUSH_CLOCK]
    case Cpi(body) => [CALL] + ToBytes(|Lower(body)|, 2) + Lower(body)
    case Binary(op, l, r) => Lower(l) + Lower(r) + [Opcode(op)]
  }

  /** Every call body fits its 16-bit length. */
  predicate CallsFit(e: Expr) {
    match e
    case Cpi(body) => |Lower(body)| < 0x1_0000 && CallsFit(body)
    case Binary(_, l, r) => CallsFit(l) && CallsFit(r)
    case _ => true
  }

  /** A lowered program short enough for one call length has only such bodies. */
  lemma {:induction false} ShortProgramsFit(e: Expr)
    requires |Lower(e)| < 0x1_0003
    ensures CallsFit(e)
    decreases e
  {
    match e
    case Cpi(body) => ShortProgramsFit(body);
    case Binary(_, l, r) =>
      ShortProgramsFit(l);
      ShortProgramsFit(r);
    case _ =>
  }

  // ---------------------------------------------------------------- Meaning of a tree

  /** What the program sees: its accounts, the clock, and whether a transfer it is
      asked to make goes through. */
  datatype Env = Env(accounts: seq<seq<Byte>>, clock: Result<I64>, transfers: seq<Byte> -> bool)

  function Checked(v: int): Result<I64> {
    if I64_MIN <= v <= I64_MAX then Ok(v) else Err(Arithmetic)
  }

  /** Division that truncates toward zero. */
  function Quotient(a: int, b: int): int
    requires b != 0
  {
    if a >= 0 then a / b else -((-a) / b)
  }

  function Calculate(op: Op, a: I64, b: I64): Result<I64> {
    match op
    case Plus => Checked(a + b)
    case Minus => Checked(a - b)
    case Times => Checked(a * b)
    case Over => if b == 0 then Err(DivByZero) else Checked(Quotient(a, b))
  }

  /** `q` is `a / b` truncated toward zero: what is left over is smaller than the
      divisor and has the sign of the dividend. */
  predicate Truncates(a: int, b: int, q: int) {
    var r := a - q * b;
    Abs(r) < Abs(b) && (if a >= 0 then r >= 0 else r <= 0)
  }

  function Abs(x: int): nat {
    if x >= 0 then x else -x
  }

  lemma QuotientTruncates(a: int, b: int)
    requires b != 0
    ensures Truncates(a, b, Quotient(a, b))
  {
    var n := if a >= 0 then a else -a;
    var q := n / b;
    Euclidean(n, b, q);
    NegatedProduct(q, b);
  }

  lemma Euclidean(n: nat, b: int, q: int)
    requires b != 0 && q == n / b
    ensures 0 <= n - q * b < Abs(b)
  {
    assert n == b * (n / b) + n % b;
  }

  lemma NegatedProduct(q: int, b: int)
    ensures (-q) * b == -(q * b)
  {
  }

  /** A nonzero multiple is at least as far from zero as the number itself. */
  lemma MultipleIsFar(n: int, b: int)
    ensures n == 0 || Abs(n * b) >= Abs(b)
  {
    AbsProduct(n, b);
    Scaled(Abs(n), Abs(b), 1);
  }

  lemma AbsProduct(n: int, b: int)
    ensures Abs(n * b) == Abs(n) * Abs(b)
    decreases n < 0, b < 0
  {
    if n < 0 {
      AbsProduct(-n, b);
      NegatedProduct(n, b);
    } else if b < 0 {
      AbsProduct(n, -b);
      NegatedFactor(n, b);
    } else {
      Scaled(n, b, 0);
    }
  }

  lemma NegatedFactor(n: int, b: int)
    ensures n * -b == -(n * b)
  {
  }

  lemma {:induction false} Scaled(n: nat, m: nat, k: nat)
    ensures k <= m ==> n * m >= n * k
    ensures n > 0 ==> n * m >= m
    ensures n * m >= 0
  {
    if n > 0 {
      Scaled(n - 1, m, k);
      assert n * m == (n - 1) * m + m && n * k == (n - 1) * k + k;
    }
  }

  /** At most one quotient truncates, and its product is no further from zero than
      the dividend. */
  lemma TruncatesOnce(a: int, b: int, p: int, q: int)
    requires b != 0 && Truncates(a, b, p) && Truncates(a, b, q)
    ensures p == q && Abs(q * b) <= Abs(a)
  {
    assert (p - q) * b == p * b - q * b;
    MultipleIsFar(p - q, b);
    MultipleIsFar(q, b);
  }

  /** Only the least value over minus one leaves the range. */
  lemma QuotientFits(a: I64, b: I64)
    requires b != 0
    ensures I64_MIN <= Quotient(a, b) <= I64_MAX <==> !(a == I64_MIN && b == -1)
  {
    hide Quotient, Truncates;
    QuotientTruncates(a, b);
    var q := Quotient(a, b);
    TruncatesOnce(a, b, q, q);
    if b == 1 || b == -1 {
      UnitQuotient(a, b);
    } else {
      Doubled(q, b);
    }
  }

  lemma UnitQuotient(a: int, b: int)
    requires b == 1 || b == -1
    ensures Quotient(a, b) == a * b
  {
  }

  lemma Doubled(q: int, b: int)
    requires Abs(b) >= 2
    ensures 2 * Abs(q) <= Abs(q * b)
  {
    AbsProduct(q, b);
    Scaled(Abs(q), Abs(b), 2);
  }

  /** Each operation succeeds exactly in range, with the arithmetic value. */
  lemma CalculateMeans(op: Op, a: I64, b: I64, v: I64)
    ensures Calculate(op, a, b) == Ok(v) <==>
            match op
            case Plus => v == a + b
            case Minus => v == a - b
            case Times => v == a * b
            case Over => b != 0 && Truncates(a, b, v)
    ensures Calculate(op, a, b) == Err(DivByZero) <==> op.Over? && b == 0
    ensures Calculate(op, a, b) == Err(Arithmetic) <==>
            match op
            case Plus => !(I64_MIN <= a + b <= I64_MAX)
            case Minus => !(I64_MIN <= a - b <= I64_MAX)
            case Times => !(I64_MIN <= a * b <= I64_MAX)
            case Over => a == I64_MIN && b == -1
  {
    hide Truncates;
    if op.Over? && b != 0 {
      hide Quotient;
      QuotientTruncates(a, b);
      QuotientFits(a, b);
      if Truncates(a, b, v) {
        TruncatesOnce(a, b, v, Quotient(a, b));
      }
    }
  }

  function AccountValue(env: Env, i: Byte): Result<I64> {
    if i >= |env.accounts| then Err(BadAccountIndex)
    else if |env.accounts[i]| < 8 then Err(ShortAccount)
    else Ok(HeadI64(env.accounts[i]))
  }

  /** An account's value is the signed word its data starts with. */
  lemma AccountValueMeans(env: Env, i: Byte, v: I64)
    ensures AccountValue(env, i) == Ok(v) <==> i < |env.accounts| && I64Bytes(v) <= env.accounts[i]
    ensures AccountValue(env, i) == Err(ShortAccount) <==> i < |env.accounts| && |env.accounts[i]| < 8
    ensures AccountValue(env, i) == Err(BadAccountIndex) <==> i >= |env.accounts|
  {
    hide I64Bytes, HeadI64;
    LiteralIsEight(v);
    if i < |env.accounts| && |env.accounts[i]| >= 8 {
      var data := env.accounts[i];
      HeadBytes(data);
      if I64Bytes(v) <= data {
        assert data == I64Bytes(v) + data[8..];
        I64RoundTrip(v, data[8..]);
      } else {
        assert I64Bytes(HeadI64(data)) <= data;
      }
    }
  }

  lemma HeadBytes(data: seq<Byte>)
    requires |data| >= 8
    ensures I64Bytes(HeadI64(data)) == data[..8]
  {
    Pow256Eight();
    WordBound(data[..8]);
    BytesRoundTrip(data[..8]);
  }

  /** The value of a tree: left operand, right operand, then the operation, with
      the first error found in that order. It knows no stack. */
  function Value(env: Env, e: Expr): Result<I64> {
    match e
    case Lit(v) => Ok(v)
    case Acc(i) => AccountValue(env, i)
    case Clock => env.clock
    case Cpi(body) => Value(env, body)
    case Binary(op, l, r) =>
      var a := Value(env, l);
      if a.Err? then a
      else
        var b := Value(env, r);
        if b.Err? then b else Calculate(op, a.value, b.value)
  }

  /** Slots a tree needs at its own level. A call's body runs on its own stack. */
  function Need(e: Expr): nat {
    match e
    case Binary(_, l, r) => if Need(l) > Need(r) + 1 then Need(l) else Need(r) + 1
    case _ => 1
  }

  /** Every level fits the stack. */
  predicate LevelsFit(e: Expr) {
    Need(e) <= SLOTS && BodiesFit(e)
  }

  predicate BodiesFit(e: Expr) {
    match e
    case Cpi(body) => Need(body) <= SLOTS && BodiesFit(body)
    case Binary(_, l, r) => BodiesFit(l) && BodiesFit(r)
    case _ => true
  }

  // ---------------------------------------------------------------- The evaluator

  function Push(stack: seq<I64>, v: I64): Result<seq<I64>> {
    if |stack| < SLOTS then Ok(stack + [v]) else Err(StackOverflow)
  }

  /** The tokens from here on, against the operand stack. */
  function Run(env: Env, data: seq<Byte>, stack: seq<I64>): Result<I64>
    decreases |data|, 0
  {
    if data == [] then
      if |stack| == 1 then Ok(stack[0]) else Err(UnbalancedProgram)
    else if data[0] == PUSH_LIT then
      if |data| < 9 then Err(Truncated) else Pushed(env, Ok(HeadI64(data[1..])), data[9..], stack)
    else if data[0] == PUSH_ACC then
      if |data| < 2 then Err(Truncated) else Pushed(env, AccountValue(env, data[1]), data[2..], stack)
    else if data[0] == PUSH_CLOCK then
      Pushed(env, env.clock, data[1..], stack)
    else if data[0] == ADD || data[0] == SUB || data[0] == MUL || data[0] == DIV then
      if |stack| < 2 then Err(StackUnderflow)
      else
        var a, b := stack[|stack| - 2], stack[|stack| - 1];
        Pushed(env, Calculate(OpOf(data[0]), a, b), data[1..], stack[..|stack| - 2])
    else if data[0] == CALL then
      if |data| < 3 then Err(Truncated)
      else
        var len := FromBytes(data[1..3]);
        if |data| < 3 + len then Err(Truncated)
        else Pushed(env, Called(env, data[3..3 + len]), data[3 + len..], stack)
    else Err(BadOpcode)
  }

  predicate IsTransfer(data: seq<Byte>) {
    data != [] && data[0] == TRANSFER
  }

  /** A nested call. Data that starts with the transfer opcode goes to the transfer
      handler, which never sets return data, so the call cannot succeed. */
  function Called(env: Env, nested: seq<Byte>): Result<I64>
    decreases |nested|, 1
  {
    if IsTransfer(nested) then Err(if env.transfers(nested) then MissingReturnData else TransferFailed)
    else Run(env, nested, [])
  }

  function OpOf(code: Byte): Op {
    if code == ADD then Plus else if code == SUB then Minus else if code == MUL then Times else Over
  }

  /** Pushes a result and goes on, or stops at its error. */
  function Pushed(env: Env, r: Result<I64>, rest: seq<Byte>, stack: seq<I64>): Result<I64>
    decreases |rest|, 1
  {
    if r.Err? then r
    else
      var pushed := Push(stack, r.value);
      if pushed.Err? then Err(pushed.error) else Run(env, rest, pushed.value)
  }

  // ---------------------------------------------------------------- Lowering preserves meaning

  /** A value once it is pushed above `height` slots. */
  function OnTop(v: Result<I64>, height: nat): Result<I64> {
    if v.Ok? && height >= SLOTS then Err(StackOverflow) else v
  }

  /** The value of a tree evaluated with `height` slots already in use. */
  function Stacked(env: Env, e: Expr, height: nat): Result<I64> {
    match e
    case Lit(v) => OnTop(Ok(v), height)
    case Acc(i) => OnTop(AccountValue(env, i), height)
    case Clock => OnTop(env.clock, height)
    case Cpi(body) => OnTop(Stacked(env, body, 0), height)
    case Binary(op, l, r) =>
      var a := Stacked(env, l, height);
      if a.Err? then a
      else
        var b := Stacked(env, r, height + 1);
        if b.Err? then b else Calculate(op, a.value, b.value)
  }

  /** A lowered tree is never mistaken for a transfer. */
  lemma {:induction false} LoweredIsNoTransfer(e: Expr)
    ensures Lower(e) != [] && !IsTransfer(Lower(e))
    decreases e
  {
    match e
    case Binary(op, l, r) => LoweredIsNoTransfer(l);
    case _ =>
  }

  /** Whatever surrounds it, a lowered tree pushes its value or stops with its
      first error. */
  lemma {:induction false} LoweredRuns(env: Env, e: Expr, rest: seq<Byte>, stack: seq<I64>)
    requires CallsFit(e) && |stack| <= SLOTS
    ensures var v := Stacked(env, e, |stack|);
      && (v.Ok? ==> |stack| < SLOTS)
      && Run(env, Lower(e) + rest, stack) == if v.Ok? then Run(env, rest, stack + [v.value]) else v
    decreases e
  {
    match e
    case Lit(v) => LoweredLit(env, v, rest, stack);
    case Acc(i) =>
      var data := Lower(e) + rest;
      assert data[2..] == rest;
    case Clock =>
      var data := Lower(e) + rest;
      assert data[1..] == rest;
    case Cpi(body) =>
      LoweredRuns(env, body, [], []);
      assert Lower(body) + [] == Lower(body);
      LoweredCall(env, body, rest, stack);
    case Binary(op, l, r) =>
      LoweredBinary(env, op, l, r, rest, stack);
  }

  lemma LoweredLit(env: Env, v: I64, rest: seq<Byte>, stack: seq<I64>)
    requires |stack| <= SLOTS
    ensures var r := OnTop(Ok(v), |stack|);
      && (r.Ok? ==> |stack| < SLOTS)
      && Run(env, Lower(Lit(v)) + rest, stack) == if r.Ok? then Run(env, rest, stack + [r.value]) else r
  {
    hide HeadI64, I64Bytes;
    var data := Lower(Lit(v)) + rest;
    LiteralIsEight(v);
    assert data[1..] == I64Bytes(v) + rest && data[9..] == rest;
    I64RoundTrip(v, rest);
  }

  lemma LiteralIsEight(v: I64)
    ensures |I64Bytes(v)| == 8
  {
  }

  lemma LoweredCall(env: Env, body: Expr, rest: seq<Byte>, stack: seq<I64>)
    requires |stack| <= SLOTS && |Lower(body)| < 0x1_0000
    requires Run(env, Lower(body), []) == Stacked(env, body, 0)
    ensures var r := OnTop(Stacked(env, body, 0), |stack|);
      && (r.Ok? ==> |stack| < SLOTS)
      && Run(env, Lower(Cpi(body)) + rest, stack) == if r.Ok? then Run(env, rest, stack + [r.value]) else r
  {
    hide Stacked, FromBytes, ToBytes;
    var data, n := Lower(Cpi(body)) + rest, |Lower(body)|;
    Pow256Eight();
    WordRoundTrip(n, 2);
    assert data[1..3] == ToBytes(n, 2);
    assert data[3..3 + n] == Lower(body) && data[3 + n..] == rest;
    LoweredIsNoTransfer(body);
  }

  /** An operator token combines the two top operands. */
  lemma OperatorRuns(env: Env, op: Op, a: I64, b: I64, rest: seq<Byte>, stack: seq<I64>)
    requires |stack| < SLOTS
    ensures var v := Calculate(op, a, b);
      Run(env, [Opcode(op)] + rest, stack + [a] + [b]) == if v.Ok? then Run(env, rest, stack + [v.value]) else v
  {
    var two, data := stack + [a] + [b], [Opcode(op)] + rest;
    assert two[..|two| - 2] == stack && data[1..] == rest;
  }

  lemma LoweredBinary(env: Env, op: Op, l: Expr, r: Expr, rest: seq<Byte>, stack: seq<I64>)
    requires CallsFit(l) && CallsFit(r) && |stack| <= SLOTS
    ensures var v := Stacked(env, Binary(op, l, r), |stack|);
      && (v.Ok? ==> |stack| < SLOTS)
      && Run(env, Lower(Binary(op, l, r)) + rest, stack) == if v.Ok? then Run(env, rest, stack + [v.value]) else v
    decreases Binary(op, l, r), 0
  {
    hide Run, Calculate;
    var code := [Opcode(op)] + rest;
    assert Lower(Binary(op, l, r)) + rest == Lower(l) + (Lower(r) + code);
    LoweredRuns(env, l, Lower(r) + code, stack);
    var a := Stacked(env, l, |stack|);
    if a.Ok? {
      LoweredRuns(env, r, code, stack + [a.value]);
      var b := Stacked(env, r, |stack| + 1);
      if b.Ok? {
        OperatorRuns(env, op, a.value, b.value, rest, stack);
      }
    }
  }

  /** With room for its own level and its bodies, a tree has its stackless value. */
  lemma {:induction false} RoomGivesValue(env: Env, e: Expr, height: nat)
    requires height + Need(e) <= SLOTS && BodiesFit(e)
    ensures Stacked(env, e, height) == Value(env, e)
    decreases e
  {
    match e
    case Cpi(body) => RoomGivesValue(env, body, 0);
    case Binary(op, l, r) =>
      RoomGivesValue(env, l, height);
      RoomGivesValue(env, r, height + 1);
    case _ =>
  }

  /** Without it, a tree never succeeds; if no operand fails first, it overflows. */
  lemma {:induction false} NoRoomOverflows(env: Env, e: Expr, height: nat)
    requires height <= SLOTS && (height + Need(e) > SLOTS || !BodiesFit(e))
    ensures Stacked(env, e, height).Err?
    ensures Value(env, e).Ok? ==> Stacked(env, e, height) == Err(StackOverflow)
    decreases e
  {
    match e
    case Cpi(body) =>
      if LevelsFit(body) {
        RoomGivesValue(env, body, 0);
      } else {
        NoRoomOverflows(env, body, 0);
      }
    case Binary(op, l, r) =>
      if height + Need(l) > SLOTS || !BodiesFit(l) {
        NoRoomOverflows(env, l, height);
      } else {
        RoomGivesValue(env, l, height);
        NoRoomOverflows(env, r, height + 1);
      }
    case _ =>
  }

  /** Lowering preserves meaning. Evaluating the postfix bytes gives the tree's
      value or first error whenever every level fits 64 slots. Otherwise it fails,
      with a stack overflow if nothing else fails first. */
  lemma LoweringPreservesMeaning(env: Env, e: Expr)
    requires CallsFit(e)
    ensures LevelsFit(e) ==> Run(env, Lower(e), []) == Value(env, e)
    ensures !LevelsFit(e) ==> Run(env, Lower(e), []).Err?
    ensures !LevelsFit(e) && Value(env, e).Ok? ==> Run(env, Lower(e), []) == Err(StackOverflow)
  {
    LoweredRuns(env, e, [], []);
    assert Lower(e) + [] == Lower(e);
    if LevelsFit(e) {
      RoomGivesValue(env, e, 0);
    } else {
      NoRoomOverflows(env, e, 0);
    }
  }

  // ---------------------------------------------------------------- The evaluation loop

  /** The operand stack: a fixed array and a length. */
  class Stack {
    const slots: array<I64>
    var len: nat

    ghost predicate Valid()
      reads this
    {
      slots.Length == SLOTS && len <= SLOTS
    }

    ghost function Contents(): seq<I64>
      requires Valid()
      reads this, slots
    {
      slots[..len]
    }

    constructor ()
      ensures Valid() && fresh(slots) && Contents() == []
    {
      slots := new I64[SLOTS](_ => 0);
      len := 0;
    }

    method Add(v: I64) returns (ok: bool)
      requires Valid()
      modifies this, slots
      ensures Valid()
      ensures if ok then Push(old(Contents()), v) == Ok(Contents())
              else Push(old(Contents()), v).Err? && Contents() == old(Contents())
    {
      if len >= SLOTS {
        return false;
      }
      slots[len] := v;
      len := len + 1;
      assert Contents() == old(Contents()) + [v];
      return true;
    }

    method Pop() returns (v: Result<I64>)
      requires Valid()
      modifies this
      ensures Valid()
      ensures v.Err? <==> old(Contents()) == []
      ensures v.Ok? ==> old(Contents()) == Contents() + [v.value]
      ensures v.Err? ==> v == Err(StackUnderflow)
    {
      if len == 0 {
        return Err(StackUnderflow);
      }
      len := len - 1;
      return Ok(slots[len]);
    }
  }

  /** Runs the token stream against a fresh stack, as the program does: a loop over
      a shrinking cursor, recursing for calls. */
  method Evaluate(env: Env, data: seq<Byte>) returns (r: Result<I64>)
    ensures r == Run(env, data, [])
    decreases |data|, 0
  {
    hide Calculate, AccountValue, HeadI64, Called, FromBytes;
    var stack := new Stack();
    var cursor := data;
    while cursor != []
      invariant stack.Valid() && fresh(stack) && fresh(stack.slots)
      invariant |cursor| <= |data| && Run(env, cursor, stack.Contents()) == Run(env, data, [])
      decreases |cursor|
    {
      var token := cursor[0];
      var v: Result<I64>;
      var rest: seq<Byte>;
      if token == PUSH_LIT {
        if |cursor| < 9 {
          return Err(Truncated);
        }
        v, rest := Ok(HeadI64(cursor[1..])), cursor[9..];
      } else if token == PUSH_ACC {
        if |cursor| < 2 {
          return Err(Truncated);
        }
        v, rest := AccountValue(env, cursor[1]), cursor[2..];
      } else if token == PUSH_CLOCK {
        v, rest := env.clock, cursor[1..];
      } else if token == ADD || token == SUB || token == MUL || token == DIV {
        ghost var before := stack.Contents();
        var b := stack.Pop();
        if b.Err? {
          return Err(StackUnderflow);
        }
        var a := stack.Pop();
        if a.Err? {
          return Err(StackUnderflow);
        }
        assert stack.Contents() == before[..|before| - 2];
        v, rest := Calculate(OpOf(token), a.value, b.value), cursor[1..];
      } else if token == CALL {
        if |cursor| < 3 {
          return Err(Truncated);
        }
        var len := FromBytes(cursor[1..3]);
        if |cursor| < 3 + len {
          return Err(Truncated);
        }
        v := Call(env, cursor[3..3 + len]);
        rest := cursor[3 + len..];
      } else {
        return Err(BadOpcode);
      }
      if v.Err? {
        return v;
      }
      var ok := stack.Add(v.value);
      if !ok {
        return Err(StackOverflow);
      }
      cursor := rest;
    }
    r := if stack.len == 1 then Ok(stack.slots[0]) else Err(UnbalancedProgram);
  }

  /** Invokes the program on nested data: the entry point dispatches on its first byte. */
  method Call(env: Env, nested: seq<Byte>) returns (r: Result<I64>)
    ensures r == Called(env, nested)
    decreases |nested|, 1
  {
    if nested != [] && nested[0] == TRANSFER {
      return Err(if env.transfers(nested) then MissingReturnData else TransferFailed);
    }
    r := Evaluate(env, nested);
  }
}
