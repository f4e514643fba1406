/** Facts about short sequence displays, stated once so that the proofs
    about whole queries can cite them instead of re-deriving them. */
module Lists {
  lemma Units<T>(s: seq<T>)
    ensures [] + s == s && s + [] == s
  {
  }

  lemma Two<T>(a: T, b: T)
    ensures [a] + [b] == [a, b]
  {
  }

  lemma TwoThen<T>(a: T, b: T, c: T)
    ensures [a, b] + [c] == [a, b, c]
  {
  }

  lemma ThenTwo<T>(a: T, b: T, c: T)
    ensures [a] + [b, c] == [a, b, c]
  {
  }

  lemma ThreeThen<T>(a: T, b: T, c: T, d: T)
    ensures [a, b, c] + [d] == [a, b, c, d]
  {
  }

  lemma FourThen<T>(a: T, b: T, c: T, d: T, e: T)
    ensures [a, b, c, d] + [e] == [a, b, c, d, e]
  {
  }

  lemma ConsPair<T>(a: T, b: T, s: seq<T>)
    ensures [a] + ([b] + s) == [a, b] + s
  {
  }

  lemma ConsTwo<T>(x: T, ys: seq<T>)
    requires |ys| == 2
    ensures [x] + ys == [x, ys[0], ys[1]]
  {
  }

  lemma ConsThree<T>(x: T, ys: seq<T>)
    requires |ys| == 3
    ensures [x] + ys == [x, ys[0], ys[1], ys[2]]
  {
  }

  lemma ConsFive<T>(x: T, ys: seq<T>)
    requires |ys| == 5
    ensures [x] + ys == [x, ys[0], ys[1], ys[2], ys[3], ys[4]]
  {
  }
}
