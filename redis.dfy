/**
 * The key-value store the service keeps its challenges in, reduced to the four
 * commands it uses: EXISTS, GET, SET and DEL. The store is a map from session
 * key to challenge; whether the server can be reached is fixed per store, and
 * an unreachable store answers every command with an error.
 */
module Redis {
  import opened Captcha

  /** The reply to EXISTS: the number of the given keys that exist, or an error. */
  datatype ExistsReply = Count(n: int) | ExistsError

  /** The reply to GET: the stored value, `redis.Nil` for a missing key, or another error. */
  datatype GetReply = Found(value: CaptchaData) | Nil | GetError

  class Store {
    var data: map<string, CaptchaData>
    const reachable: bool

    /** Every live challenge is one the generator could have produced. */
    ghost predicate Valid()
      reads this
    {
      AllWellFormed(data)
    }

    /**
     * The model's start state: an empty store. The handler properties do not
     * depend on it; each is stated for an arbitrary store.
     */
    constructor (reachable: bool)
      ensures data == map[] && this.reachable == reachable
      ensures Valid()
    {
      data := map[];
      this.reachable := reachable;
    }

    method Exists(key: string) returns (reply: ExistsReply)
      ensures reachable ==> reply == Count(if key in data then 1 else 0)
      ensures !reachable ==> reply == ExistsError
    {
      if !reachable {
        reply := ExistsError;
      } else {
        reply := Count(if key in data then 1 else 0);
      }
    }

    method Get(key: string) returns (reply: GetReply)
      ensures reply.Found? <==> reachable && key in data
      ensures reply.Found? ==> reply.value == data[key]
      ensures reply.Nil? <==> reachable && key !in data
    {
      if !reachable {
        reply := GetError;
      } else if key in data {
        reply := Found(data[key]);
      } else {
        reply := Nil;
      }
    }

    /** SET with a time to live; the expiry itself is the separate `Expire` step. */
    method Set(key: string, value: CaptchaData)
      modifies this
      ensures data == if reachable then old(data)[key := value] else old(data)
    {
      if reachable {
        data := data[key := value];
      }
    }

    /** DEL: removing a key that is not there is not an error. */
    method Del(key: string)
      modifies this
      ensures data == if reachable then old(data) - {key} else old(data)
    {
      if reachable {
        data := data - {key};
      }
    }

    /** The store drops a key whose five-minute time to live has run out. */
    method Expire(key: string)
      modifies this
      ensures data == old(data) - {key}
      ensures old(Valid()) ==> Valid()
    {
      data := data - {key};
    }
  }
}
