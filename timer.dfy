/** The engine's redraw timer: the handler's message queue, the removeMessages
    and send operations the engine uses on it, and the delay that aligns each
    redraw to the next whole second. */
module Timer {

  /** INTERACTIVE_UPDATE_RATE_MS = TimeUnit.SECONDS.toMillis(1). */
  const INTERACTIVE_UPDATE_RATE_MS: int := 1000

  /** The one message id the engine posts to its handler. */
  const MSG_UPDATE_TIME: int := 0

  /** A queued handler message: its id and the delay it was sent with. */
  datatype Message = Message(what: int, delayMs: int)

  /** Java's / on long: the quotient is truncated toward zero. */
  function JavaQuot(a: int, b: int): int
    requires b > 0
  {
    if a >= 0 then a / b else -((-a) / b)
  }

  /** Java's % on long: the remainder takes the sign of the dividend, and
      quotient times divisor plus remainder gives back the dividend. */
  function JavaRem(a: int, b: int): (r: int)
    requires b > 0
    ensures a >= 0 ==> 0 <= r < b
    ensures a < 0 ==> -b < r <= 0
    ensures JavaQuot(a, b) * b + r == a
  {
    if a >= 0 then a % b else -((-a) % b)
  }

  /** The delay handleMessage computes: INTERACTIVE_UPDATE_RATE_MS minus the
      milliseconds already past the current second. */
  function UpdateDelay(timeMs: int): (d: int)
    ensures timeMs >= 0 ==> 1 <= d <= INTERACTIVE_UPDATE_RATE_MS
    ensures timeMs < 0 ==> INTERACTIVE_UPDATE_RATE_MS <= d < 2 * INTERACTIVE_UPDATE_RATE_MS
    ensures (timeMs + d) % INTERACTIVE_UPDATE_RATE_MS == 0
  {
    INTERACTIVE_UPDATE_RATE_MS - JavaRem(timeMs, INTERACTIVE_UPDATE_RATE_MS)
  }

  /** The delay is the least positive wait that lands on a whole second. */
  lemma UpdateDelayIsLeast(timeMs: int, d: int)
    requires timeMs >= 0 && 1 <= d < UpdateDelay(timeMs)
    ensures (timeMs + d) % INTERACTIVE_UPDATE_RATE_MS != 0
  {
    var r := JavaRem(timeMs, INTERACTIVE_UPDATE_RATE_MS);
    assert timeMs == (timeMs / 1000) * 1000 + r;
    assert timeMs + d == (timeMs / 1000) * 1000 + (r + d);
    assert 0 < r + d < 1000;
  }

  /** The number of queued messages with the given id. */
  function Count(q: seq<Message>, what: int): nat
  {
    if q == [] then 0
    else (if q[0].what == what then 1 else 0) + Count(q[1..], what)
  }

  /** Handler.removeMessages(what): drops every queued message with that id and
      keeps the others in order. */
  function RemoveMessages(q: seq<Message>, what: int): (r: seq<Message>)
    ensures Count(r, what) == 0
    ensures forall m :: m in r ==> m in q && m.what != what
    ensures forall i :: 0 <= i < |q| && q[i].what != what ==> q[i] in r
    ensures forall w :: w != what ==> Count(r, w) == Count(q, w)
  {
    if q == [] then []
    else if q[0].what == what then RemoveMessages(q[1..], what)
    else [q[0]] + RemoveMessages(q[1..], what)
  }

  lemma {:induction false} CountAppend(q: seq<Message>, tail: seq<Message>, what: int)
    ensures Count(q + tail, what) == Count(q, what) + Count(tail, what)
  {
    if q != [] {
      assert (q + tail)[0] == q[0] && (q + tail)[1..] == q[1..] + tail;
      CountAppend(q[1..], tail, what);
    } else {
      assert q + tail == tail;
    }
  }

  /** Handler.sendEmptyMessageDelayed(what, delayMs) (sendEmptyMessage when the
      delay is 0): one more message with that id. Delivery order by due time is
      not modelled; the message is appended. */
  function Send(q: seq<Message>, what: int, delayMs: int): (r: seq<Message>)
    ensures Count(r, what) == Count(q, what) + 1
    ensures forall w :: w != what ==> Count(r, w) == Count(q, w)
  {
    var r := q + [Message(what, delayMs)];
    forall w ensures Count(r, w) == Count(q, w) + (if w == what then 1 else 0) {
      CountAppend(q, [Message(what, delayMs)], w);
    }
    r
  }

  /** updateTimer on the queue: remove every MSG_UPDATE_TIME, then send one
      immediately when the timer should be running. */
  function Restarted(q: seq<Message>, running: bool): (r: seq<Message>)
    ensures Count(r, MSG_UPDATE_TIME) == if running then 1 else 0
    ensures forall w :: w != MSG_UPDATE_TIME ==> Count(r, w) == Count(q, w)
  {
    var cleared := RemoveMessages(q, MSG_UPDATE_TIME);
    if running then Send(cleared, MSG_UPDATE_TIME, 0) else cleared
  }

  /** handleMessage on the queue: the delivered head message leaves the queue,
      and one follow-up is sent, aligned to the next second, only when the timer
      should be running. */
  function AfterDelivery(q: seq<Message>, running: bool, timeMs: int): (r: seq<Message>)
    requires q != []
    ensures Count(r, MSG_UPDATE_TIME) == Count(q[1..], MSG_UPDATE_TIME) + (if running then 1 else 0)
    ensures running ==> r[|r| - 1] == Message(MSG_UPDATE_TIME, UpdateDelay(timeMs))
  {
    if running then Send(q[1..], MSG_UPDATE_TIME, UpdateDelay(timeMs)) else q[1..]
  }
}
