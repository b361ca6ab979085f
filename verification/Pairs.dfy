/** Two of everything: cores, chains, beacon templates. */
module Pairs {

  datatype Pair<T> = Pair(c0: T, c1: T) {
    function Get(k: nat): T {
      if k == 0 then c0 else c1
    }

    function Set(k: nat, v: T): Pair<T> {
      if k == 0 then Pair(v, c1) else Pair(c0, v)
    }
  }

  datatype Option<+T> = None | Some(value: T)
}
