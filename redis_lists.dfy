/** The Redis lists the services use as result buffers: `rpush` appends at
    the tail, `lpop` takes from the head, and a missing key reads as the
    empty list. */
module RedisStore {
  import opened Wrappers

  /** The lists once the first `n` entries of `list`, the list under `key`,
      have been popped. */
  function AfterPops(lists: map<string, seq<string>>, key: string, list: seq<string>, n: nat): map<string, seq<string>>
    requires n <= |list|
  {
    if n == 0 then lists else lists[key := list[n..]]
  }

  class RedisLists {
    var lists: map<string, seq<string>>

    /** The list stored under `key`. */
    function List(key: string): seq<string>
      reads this
    {
      if key in lists then lists[key] else []
    }

    constructor()
      ensures lists == map[]
    {
      lists := map[];
    }

    /** `RPUSH key value`. */
    method RPush(key: string, value: string)
      modifies this
      ensures lists == old(lists)[key := old(List(key)) + [value]]
    {
      lists := lists[key := List(key) + [value]];
    }

    /** `LPOP key`: the head of the list, or `None` (Redis nil) when it is empty. */
    method LPop(key: string) returns (r: Option<string>)
      modifies this
      ensures old(List(key)) == [] ==> r == None && lists == old(lists)
      ensures old(List(key)) != [] ==>
        r == Some(old(List(key))[0]) && lists == old(lists)[key := old(List(key))[1..]]
    {
      var l := List(key);
      if l == [] {
        r := None;
      } else {
        r := Some(l[0]);
        lists := lists[key := l[1..]];
      }
    }
  }
}
