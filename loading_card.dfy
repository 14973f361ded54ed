/** The loading card of src/components/cards/LoadingCard.tsx: a message index
    that the timer advances, wrapping around its list of messages. The timer
    itself is not modelled; Tick is one of its firings. */
module LoadingCard {
  import opened FortuneTypes

  /** The messages for a language (LoadingCard.tsx:15-25). */
  function Messages(lang: Language): (ms: seq<string>)
    ensures |ms| == 4
  {
    match lang
    case En => ["Consulting the stars...", "Aligning with the Fire Horse...",
                "Reading the celestial patterns...", "Your destiny is unfolding..."]
    case Zh => ["正在咨询星辰...", "与火马能量对齐...", "解读天象模式...", "您的命运正在展开..."]
  }

  /** The timer's update `(prev + 1) % messages.length`. */
  function TickIndex(prev: nat, n: nat): (next: nat)
    requires n > 0
    ensures next < n
    ensures prev < n - 1 ==> next == prev + 1
    ensures prev == n - 1 ==> next == 0
  {
    (prev + 1) % n
  }

  /** The index after `k` firings of the timer. */
  function Ticks(i: nat, k: nat, n: nat): (j: nat)
    requires n > 0
    ensures j < n || (k == 0 && j == i)
    decreases k
  {
    if k == 0 then i else Ticks(TickIndex(i, n), k - 1, n)
  }

  /** From an index in range, `k` firings move it `k` places round the list. */
  lemma {:induction false} TicksAdvance(i: nat, k: nat, n: nat)
    requires n > 0 && i < n
    ensures Ticks(i, k, n) == (i + k) % n
    decreases k
  {
    if k > 0 {
      TicksAdvance(TickIndex(i, n), k - 1, n);
      if i == n - 1 {
        AddModulus(k - 1, n);
      }
    }
  }

  /** Adding the modulus does not change a remainder. */
  lemma AddModulus(x: nat, n: nat)
    requires n > 0
    ensures (x + n) % n == x % n
  {
    var q, r := x / n, x % n;
    assert x + n == (q + 1) * n + r;
    RemainderUnique(x + n, q + 1, r, n);
  }

  /** A remainder is the only one below the divisor. */
  lemma RemainderUnique(a: int, q: int, r: int, n: int)
    requires n > 0 && 0 <= r < n && a == q * n + r
    ensures a % n == r
  {
    var p := a / n;
    assert a == p * n + a % n;
    var d := q - p;
    Distribute(q, p, n);
    assert d * n == a % n - r;
    if d > 0 {
      AtLeastOnce(d, n);
    } else if d < 0 {
      AtLeastOnce(-d, n);
      Distribute(0, -d, n);
    }
  }

  lemma Distribute(q: int, p: int, n: int)
    ensures (q - p) * n == q * n - p * n
  {
  }

  lemma AtLeastOnce(d: int, n: int)
    requires d > 0 && n > 0
    ensures d * n >= n
  {
  }

  /** After as many firings as there are messages, the same message is shown again. */
  lemma FullCycle(i: nat, lang: Language)
    requires i < |Messages(lang)|
    ensures Ticks(i, |Messages(lang)|, |Messages(lang)|) == i
  {
  }

  class LoadingMessages {
    const messages: seq<string>
    var messageIndex: nat

    ghost predicate Valid()
      reads this
    {
      |messages| > 0 && messageIndex < |messages|
    }

    /** The card starts on the first message (LoadingCard.tsx:13). */
    constructor (lang: Language)
      ensures Valid()
      ensures messages == Messages(lang) && messageIndex == 0
    {
      messages := Messages(lang);
      messageIndex := 0;
    }

    /** One firing of the interval (LoadingCard.tsx:29). */
    method Tick()
      requires Valid()
      modifies this
      ensures Valid()
      ensures messageIndex == TickIndex(old(messageIndex), |messages|)
    {
      messageIndex := (messageIndex + 1) % |messages|;
    }

    /** `messages[messageIndex]`, the message on screen: always defined. */
    function Current(): (m: string)
      reads this
      requires Valid()
      ensures m in messages
    {
      messages[messageIndex]
    }
  }
}
