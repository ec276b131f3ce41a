/** Batch keys: 64-bit values drawn with `fetch_add(1)` from one atomic counter.

    The counter starts at 1 and wraps at 2^64; the all-ones value is reserved as the invalid key. A
    draw is named here by its ticket, the number of draws that came before it. */
module Keys {
  import Bytes

  const KEY_SPACE: int := Bytes.UINT64_SPACE
  const FIRST_KEY: int := 1
  const INVALID_DB_JOB_KEY: int := KEY_SPACE - 1

  type Key = k: int | 0 <= k < KEY_SPACE

  /** What the counter holds after one more `fetch_add(1)`. */
  function Bump(counter: Key): Key {
    (counter + 1) % KEY_SPACE
  }

  /** The key the draw with this ticket returns, when the counter starts at `start`. */
  function KeyFrom(start: Key, ticket: nat): Key
    decreases ticket
  {
    if ticket == 0 then start else Bump(KeyFrom(start, ticket - 1))
  }

  function KeyOf(ticket: nat): Key {
    KeyFrom(FIRST_KEY, ticket)
  }

  /** The ticket below 2^64 that yields `key`. */
  function TicketOf(key: Key): nat {
    (key + KEY_SPACE - FIRST_KEY) % KEY_SPACE
  }

  lemma {:induction false} KeyFromClosedForm(start: Key, ticket: nat)
    ensures KeyFrom(start, ticket) == (start + ticket) % KEY_SPACE
    decreases ticket
  {
    if ticket != 0 {
      KeyFromClosedForm(start, ticket - 1);
      WrapThenBump(start + ticket - 1);
    }
  }

  lemma WrapThenBump(n: nat)
    ensures Bump(n % KEY_SPACE) == (n + 1) % KEY_SPACE
  {
    var q, r := n / KEY_SPACE, n % KEY_SPACE;
    if r + 1 < KEY_SPACE {
      Bytes.QuotientIs(n + 1, KEY_SPACE, q, r + 1);
    } else {
      Bytes.QuotientIs(n + 1, KEY_SPACE, q + 1, 0);
    }
  }

  lemma AddThenWrap(start: Key, n: nat)
    ensures var r := n % KEY_SPACE;
            (start + n) % KEY_SPACE == if start + r < KEY_SPACE then start + r else start + r - KEY_SPACE
  {
  }

  /** Two draws return the same key exactly when their tickets agree modulo 2^64, wherever the
      counter starts. */
  lemma KeysCollideExactly(start: Key, i: nat, j: nat)
    ensures KeyFrom(start, i) == KeyFrom(start, j) <==> i % KEY_SPACE == j % KEY_SPACE
  {
    KeyFromClosedForm(start, i);
    KeyFromClosedForm(start, j);
    AddThenWrap(start, i);
    AddThenWrap(start, j);
  }

  lemma EarlyTicketsDiffer(start: Key, i: nat, j: nat)
    requires i < j < KEY_SPACE
    ensures KeyFrom(start, i) != KeyFrom(start, j)
  {
    KeysCollideExactly(start, i, j);
  }

  /** Any 2^64 consecutive draws are pairwise distinct, and one more is not. */
  lemma KeyUniqueness(start: Key, n: nat)
    ensures (forall i: nat, j: nat | i < j < n :: KeyFrom(start, i) != KeyFrom(start, j)) <==> n <= KEY_SPACE
  {
    forall i: nat, j: nat | i < j < n && n <= KEY_SPACE
      ensures KeyFrom(start, i) != KeyFrom(start, j)
    {
      EarlyTicketsDiffer(start, i, j);
    }
    if KEY_SPACE < n {
      KeysCollideExactly(start, 0, KEY_SPACE);
      assert KeyFrom(start, 0) == KeyFrom(start, KEY_SPACE);
    }
  }

  /** From the initial value 1, the invalid key first turns up at ticket 2^64 - 2. */
  lemma InvalidKeyIsDrawnLate(n: nat)
    ensures (forall i: nat | i < n :: KeyOf(i) != INVALID_DB_JOB_KEY) <==> n <= KEY_SPACE - 2
  {
    forall i: nat | i < n && n <= KEY_SPACE - 2
      ensures KeyOf(i) != INVALID_DB_JOB_KEY
    {
      KeyFromClosedForm(FIRST_KEY, i);
    }
    if KEY_SPACE - 2 < n {
      KeyFromClosedForm(FIRST_KEY, KEY_SPACE - 2);
      assert KeyOf(KEY_SPACE - 2) == INVALID_DB_JOB_KEY;
    }
  }

  lemma InvalidTicket()
    ensures TicketOf(INVALID_DB_JOB_KEY) == KEY_SPACE - 2
  {
  }

  lemma TicketRoundTrip(ticket: nat)
    requires ticket < KEY_SPACE
    ensures TicketOf(KeyOf(ticket)) == ticket
  {
    KeyFromClosedForm(FIRST_KEY, ticket);
  }
}
