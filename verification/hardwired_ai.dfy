/** HardWiredAIService: a scripted driver. It replays a fixed list of six
    desired actions, holding each for a number of calls counted by
    `loopCounter`, and asks for a stop once the list is used up. */
module HardWiredAI {
  import opened Base

  const MaxLoop: int := 20

  /** A desired action: a steering direction and a throttle speed. */
  datatype DesiredActions = DesiredActions(direction: real, speed: real)

  /** `buildDesiredActions(speed, direction)`. */
  function BuildDesiredActions(speed: real, direction: real): (a: DesiredActions)
    ensures a.speed == speed && a.direction == direction
  {
    DesiredActions(direction, speed)
  }

  /** The script the constructor fills in. */
  const Script: seq<DesiredActions> := [
    BuildDesiredActions(0.0, 0.0),
    BuildDesiredActions(0.0, 0.25),
    BuildDesiredActions(0.0, 0.3),
    BuildDesiredActions(0.0, 0.25),
    BuildDesiredActions(0.0, 0.0),
    BuildDesiredActions(0.0, 0.0)
  ]

  /** What is returned once the script is used up. */
  const Stop: DesiredActions := BuildDesiredActions(0.0, 0.0)

  /** The two counters of the service. */
  datatype AIState = AIState(counter: int, loopCounter: int)

  const Initial: AIState := AIState(0, 0)

  /** The counters after one call of `getDesiredActions`: nothing changes
      once the script is used up; otherwise loopCounter is post-incremented
      and, when its old value reached MaxLoop, reset while counter advances. */
  function Step(s: AIState): (r: AIState)
    ensures r.counter >= s.counter
    ensures s.counter >= |Script| ==> r == s
    ensures s.counter < |Script| ==> r.counter <= s.counter + 1 && r.loopCounter <= s.loopCounter + 1
    ensures s.counter < |Script| ==> (r.counter == s.counter + 1 <==> s.loopCounter >= MaxLoop)
  {
    if s.counter >= |Script| then s
    else if s.loopCounter >= MaxLoop then AIState(s.counter + 1, 0)
    else AIState(s.counter, s.loopCounter + 1)
  }

  /** What one call returns: the stop action once the script is used up,
      otherwise the script entry at the advanced counter, which is past the
      end of the list on the call that moves counter to its size. */
  function Reply(s: AIState): (r: Result<DesiredActions>)
    ensures s.counter >= |Script| ==> r == Ok(Stop)
    ensures s.counter < |Script| ==>
              var c := Step(s).counter;
              (0 <= c < |Script| ==> r == Ok(Script[c])) && (c == |Script| ==> r == Err(IndexOutOfBoundsException))
  {
    if s.counter >= |Script| then Ok(Stop)
    else
      var c := Step(s).counter;
      if 0 <= c < |Script| then Ok(Script[c]) else Err(IndexOutOfBoundsException)
  }

  /** The counters after n calls from the initial state. */
  function StateAfter(n: nat): AIState
  {
    if n == 0 then Initial else Step(StateAfter(n - 1))
  }

  /** Closed form of the counters: call n lands on entry n / 21 with
      loopCounter n % 21, up to call 126, which uses up the script; after
      that the counters stay put. */
  lemma {:induction false} StateAfterClosedForm(n: nat)
    ensures n <= 126 ==> StateAfter(n) == AIState(n / 21, n % 21)
    ensures n >= 126 ==> StateAfter(n) == AIState(6, 0)
  {
    if n > 0 {
      StateAfterClosedForm(n - 1);
      if n <= 126 {
        var m := n - 1;
        assert m / 21 < 6;
        if m % 21 == 20 {
          assert n / 21 == m / 21 + 1 && n % 21 == 0;
        } else {
          assert n / 21 == m / 21 && n % 21 == m % 21 + 1;
        }
      }
    }
  }

  /** Call n (counting from 1) returns entry k of the script for the calls
      21 k to 21 k + 20: the first entry is held for 20 calls, every later
      one for 21. */
  lemma ScriptEntryCalls(k: int, n: nat)
    requires 0 <= k < |Script| && 1 <= n && 21 * k <= n <= 21 * k + 20
    ensures Reply(StateAfter(n - 1)) == Ok(Script[k])
  {
    StateAfterClosedForm(n - 1);
    StateAfterClosedForm(n);
  }

  /** Call 126, the one that moves counter past the last entry, reads past
      the end of the list; from then on the counters rest at (6, 0). */
  lemma ScriptRunsOut()
    ensures Reply(StateAfter(125)) == Err(IndexOutOfBoundsException)
    ensures StateAfter(126) == AIState(|Script|, 0)
  {
    StateAfterClosedForm(125);
    StateAfterClosedForm(126);
  }

  /** Once the script is used up, calls change nothing. */
  lemma {:induction false} StoppedStaysStopped(n: nat, m: nat)
    requires n >= 126 && m >= n
    ensures StateAfter(m) == StateAfter(n) && Reply(StateAfter(m)) == Ok(Stop)
  {
    StateAfterClosedForm(n);
    StateAfterClosedForm(m);
  }

  /** The counter never goes back over any number of calls. */
  lemma {:induction false} CounterNeverDecreases(n: nat, m: nat)
    requires n <= m
    ensures StateAfter(n).counter <= StateAfter(m).counter
    decreases m - n
  {
    if n < m {
      CounterNeverDecreases(n, m - 1);
    }
  }

  class HardWiredAIService {
    const desiredActionsList: seq<DesiredActions>
    var counter: int
    var loopCounter: int

    function State(): AIState
      reads this
    {
      AIState(counter, loopCounter)
    }

    constructor ()
      ensures desiredActionsList == Script && State() == Initial
    {
      desiredActionsList := Script;
      counter := 0;
      loopCounter := 0;
    }

    /** `getDesiredActions`. */
    method GetDesiredActions() returns (r: Result<DesiredActions>)
      requires desiredActionsList == Script
      modifies this
      ensures State() == Step(old(State()))
      ensures r == Reply(old(State()))
    {
      if counter >= |desiredActionsList| {
        return Ok(Stop);
      }
      var previous := loopCounter;
      loopCounter := loopCounter + 1;
      if previous >= MaxLoop {
        loopCounter := 0;
        counter := counter + 1;
      }
      if 0 <= counter < |desiredActionsList| {
        r := Ok(desiredActionsList[counter]);
      } else {
        r := Err(IndexOutOfBoundsException);
      }
    }
  }
}
