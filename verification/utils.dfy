/**
 * Helpers shared by the colony: direction arithmetic, body-part lists, creep
 * names, and the three routines that keep the persistent memory tidy
 * (rotating the global say index, dropping stale flag memory, counting
 * white-listed intruders).
 */
module Utils {
  import opened Wrappers

  // ---------------------------------------------------------------------
  // Directions
  // ---------------------------------------------------------------------

  /** The eight host directions: TOP = 1, TOP_RIGHT = 2, ..., TOP_LEFT = 8 (clockwise). */
  type Direction = d: int | 1 <= d <= 8 witness 1

  /**
   * `getOppositeDirection`: the direction pointing the other way, i.e. half a
   * turn (four steps of the eight-point compass) from `direction`.
   */
  function OppositeDirection(direction: Direction): (opposite: Direction)
    ensures opposite != direction
    ensures (opposite - direction) % 8 == 4
  {
    (direction + 3) % 8 + 1
  }

  /** Turning around twice faces the original way. */
  lemma OppositeIsInvolution(direction: Direction)
    ensures OppositeDirection(OppositeDirection(direction)) == direction
  {
  }

  /** Half a turn determines the result: no other direction is four steps away. */
  lemma OppositeIsUnique(direction: Direction, other: Direction)
    requires (other - direction) % 8 == 4
    ensures other == OppositeDirection(direction)
  {
  }

  // ---------------------------------------------------------------------
  // Body parts
  // ---------------------------------------------------------------------

  datatype BodyPart = Move | Work | Carry | Attack | RangedAttack | Heal | Claim | Tough

  /**
   * A body configuration object: its keys in the object's own key order, each
   * with the number of parts of that type. Object keys are unique.
   */
  type BodySet = seq<(BodyPart, nat)>

  predicate UniqueKeys(bodySet: BodySet)
  {
    forall i, j :: 0 <= i < j < |bodySet| ==> bodySet[i].0 != bodySet[j].0
  }

  /** How many parts of type `part` the configuration asks for. */
  function PartCount(bodySet: BodySet, part: BodyPart): nat
  {
    if bodySet == [] then 0
    else (if bodySet[0].0 == part then bodySet[0].1 else 0) + PartCount(bodySet[1..], part)
  }

  /** The total number of parts the configuration asks for. */
  function TotalParts(bodySet: BodySet): nat
  {
    if bodySet == [] then 0 else bodySet[0].1 + TotalParts(bodySet[1..])
  }

  /** Position of `part` among the configuration's keys (`|bodySet|` if absent). */
  function KeyIndex(bodySet: BodySet, part: BodyPart): nat
  {
    if bodySet == [] then 0
    else if bodySet[0].0 == part then 0
    else 1 + KeyIndex(bodySet[1..], part)
  }

  /** `Array(count).fill(part)`. */
  function Repeat(part: BodyPart, count: nat): (run: seq<BodyPart>)
    ensures |run| == count
    ensures forall q :: multiset(run)[q] == if q == part then count else 0
    ensures forall q <- run :: q == part
  {
    if count == 0 then [] else [part] + Repeat(part, count - 1)
  }

  /**
   * `calcBodyPart`: expand each key into a run of that many parts and
   * concatenate the runs. The result holds exactly the requested number of
   * each part type, and nothing else.
   */
  function CalcBodyPart(bodySet: BodySet): (body: seq<BodyPart>)
    ensures |body| == TotalParts(bodySet)
    ensures forall part :: multiset(body)[part] == PartCount(bodySet, part)
  {
    if bodySet == [] then []
    else Repeat(bodySet[0].0, bodySet[0].1) + CalcBodyPart(bodySet[1..])
  }

  /** A part that occurs in the body is one of the configuration's keys. */
  lemma {:induction false} CountedPartIsKey(bodySet: BodySet, part: BodyPart)
    requires PartCount(bodySet, part) > 0
    ensures KeyIndex(bodySet, part) < |bodySet|
  {
    if bodySet[0].0 != part {
      CountedPartIsKey(bodySet[1..], part);
    }
  }

  /**
   * The runs come in key order: with unique keys, parts are sorted by the
   * position of their key, so each type forms one contiguous run. Together
   * with the counts in `CalcBodyPart`'s contract this fixes the body exactly.
   */
  lemma {:induction false} CalcBodyPartInKeyOrder(bodySet: BodySet)
    requires UniqueKeys(bodySet)
    ensures forall i, j :: 0 <= i < j < |CalcBodyPart(bodySet)| ==>
      KeyIndex(bodySet, CalcBodyPart(bodySet)[i]) <= KeyIndex(bodySet, CalcBodyPart(bodySet)[j])
  {
    if bodySet != [] {
      var tail := bodySet[1..];
      var run := Repeat(bodySet[0].0, bodySet[0].1);
      var rest := CalcBodyPart(tail);
      assert UniqueKeys(tail) by {
        forall i, j | 0 <= i < j < |tail| ensures tail[i].0 != tail[j].0 {
          assert tail[i] == bodySet[i + 1] && tail[j] == bodySet[j + 1];
        }
      }
      CalcBodyPartInKeyOrder(tail);
      var body := CalcBodyPart(bodySet);
      assert body == run + rest;
      forall k | 0 <= k < |rest|
        ensures KeyIndex(bodySet, rest[k]) == 1 + KeyIndex(tail, rest[k])
      {
        assert rest[k] in multiset(rest);
        LaterKeyShifts(bodySet, rest[k]);
      }
      forall i, j | 0 <= i < j < |body|
        ensures KeyIndex(bodySet, body[i]) <= KeyIndex(bodySet, body[j])
      {
        if i < |run| {
          assert body[i] == run[i] && run[i] in run;
        } else {
          assert body[i] == rest[i - |run|] && body[j] == rest[j - |run|];
        }
      }
    }
  }

  /** A part counted after the first key is not the first key, so its position shifts by one. */
  lemma LaterKeyShifts(bodySet: BodySet, part: BodyPart)
    requires UniqueKeys(bodySet) && bodySet != []
    requires PartCount(bodySet[1..], part) > 0
    ensures KeyIndex(bodySet, part) == 1 + KeyIndex(bodySet[1..], part)
  {
    var tail := bodySet[1..];
    CountedPartIsKey(tail, part);
    KeyIndexFound(tail, part);
    var m := KeyIndex(tail, part);
    assert bodySet[m + 1].0 == part;
  }

  lemma {:induction false} KeyIndexFound(bodySet: BodySet, part: BodyPart)
    requires KeyIndex(bodySet, part) < |bodySet|
    ensures bodySet[KeyIndex(bodySet, part)].0 == part
  {
    if bodySet[0].0 != part {
      KeyIndexFound(bodySet[1..], part);
    }
  }

  // ---------------------------------------------------------------------
  // Creep names
  // ---------------------------------------------------------------------

  /** The decimal digit `d` as a character. */
  function DigitChar(d: nat): (c: char)
    requires d < 10
    ensures '0' <= c <= '9'
  {
    ('0' as int + d) as char
  }

  /** The decimal text of a non-negative integer, as `${n}` prints it below 10^21. */
  function NatText(n: nat): (text: string)
    ensures |text| > 0
    ensures forall c <- text :: '0' <= c <= '9'
  {
    if n < 10 then [DigitChar(n)] else NatText(n / 10) + [DigitChar(n % 10)]
  }

  /** Only the numbers below ten print as a single character. */
  lemma NatTextSingleDigit(n: nat)
    ensures |NatText(n)| == 1 <==> n < 10
  {
    if n >= 10 {
      assert |NatText(n)| == |NatText(n / 10)| + 1;
    }
  }

  /** Different numbers print differently. */
  lemma {:induction false} NatTextInjective(a: nat, b: nat)
    ensures NatText(a) == NatText(b) ==> a == b
  {
    NatTextSingleDigit(a);
    NatTextSingleDigit(b);
    if a >= 10 && b >= 10 && NatText(a) == NatText(b) {
      var ta, tb := NatText(a / 10), NatText(b / 10);
      assert NatText(a) == ta + [DigitChar(a % 10)];
      assert NatText(b) == tb + [DigitChar(b % 10)];
      assert ta == NatText(a)[..|ta|] && tb == NatText(b)[..|tb|];
      NatTextInjective(a / 10, b / 10);
      assert NatText(a)[|ta|] == DigitChar(a % 10);
    } else if a < 10 && b < 10 {
      assert NatText(a)[0] == DigitChar(a) && NatText(b)[0] == DigitChar(b);
    }
  }

  /** `${index}`: the decimal index, or the word "undefined" when it was omitted. */
  function IndexText(index: Option<nat>): string
  {
    match index
    case None => "undefined"
    case Some(n) => NatText(n)
  }

  /** An omitted index and every number print differently. */
  lemma IndexTextInjective(i: Option<nat>, j: Option<nat>)
    ensures IndexText(i) == IndexText(j) ==> i == j
  {
    match i
    case None =>
      if j.Some? {
        var t := NatText(j.value);
        assert t[0] in t;
        assert IndexText(i)[0] == 'u' && IndexText(j)[0] != 'u';
      }
    case Some(a) =>
      match j
      case None =>
        var t := NatText(a);
        assert t[0] in t;
        assert IndexText(i)[0] != 'u' && IndexText(j)[0] == 'u';
      case Some(b) =>
        NatTextInjective(a, b);
  }

  /** `creepNameGenerator`: the roles with their own naming rule. */
  function CreepNameGenerator(role: string, room: string, index: Option<nat>): Option<string>
  {
    match role
    case "upgrader" => Some(room + " upgrader" + IndexText(index))
    case "harvester" => Some(room + " harvester" + IndexText(index))
    case "transfer" => Some(room + " transfer")
    case "centerTransfer" => Some(room + " centerTransfer")
    case "remoteHarvester" => Some(room + " remoteHarvester" + IndexText(index))
    case _ => None
  }

  /** The roles a room only ever has one creep of: their names carry no index. */
  predicate IsSingletonRole(role: string)
  {
    role == "transfer" || role == "centerTransfer"
  }

  /**
   * `getCreepName`: the room, a space, the role and, except for the
   * singleton roles, the index.
   */
  function GetCreepName(role: string, roomName: string, index: Option<nat>): string
  {
    match CreepNameGenerator(role, roomName, index)
    case Some(generated) => generated
    case None => roomName + " " + role + IndexText(index)
  }

  /**
   * Every name, generated or not, is the room, a space and the role,
   * followed by the index unless the role is a singleton role.
   */
  lemma GetCreepNameShape(role: string, roomName: string, index: Option<nat>)
    ensures IsSingletonRole(role) ==> GetCreepName(role, roomName, index) == roomName + " " + role
    ensures !IsSingletonRole(role) ==>
      GetCreepName(role, roomName, index) == roomName + " " + role + IndexText(index)
  {
    var text := IndexText(index);
    if role == "upgrader" {
      SpacedRole(roomName, role, " upgrader", text);
    } else if role == "harvester" {
      SpacedRole(roomName, role, " harvester", text);
    } else if role == "transfer" {
      SpacedRole(roomName, role, " transfer", []);
    } else if role == "centerTransfer" {
      SpacedRole(roomName, role, " centerTransfer", []);
    } else if role == "remoteHarvester" {
      SpacedRole(roomName, role, " remoteHarvester", text);
    }
  }

  lemma SpacedRole(roomName: string, role: string, spaced: string, text: string)
    requires spaced == " " + role
    ensures roomName + spaced + text == roomName + " " + role + text
    ensures roomName + spaced == roomName + " " + role
  {
  }

  /** Two creeps of the same indexed role in the same room get different names. */
  lemma CreepNamesDistinctByIndex(role: string, roomName: string, i: Option<nat>, j: Option<nat>)
    requires !IsSingletonRole(role)
    requires GetCreepName(role, roomName, i) == GetCreepName(role, roomName, j)
    ensures i == j
  {
    var prefix := roomName + " " + role;
    GetCreepNameShape(role, roomName, i);
    GetCreepNameShape(role, roomName, j);
    assert IndexText(i) == GetCreepName(role, roomName, i)[|prefix|..];
    assert IndexText(j) == GetCreepName(role, roomName, j)[|prefix|..];
    IndexTextInjective(i, j);
  }

  // ---------------------------------------------------------------------
  // Persistent memory
  // ---------------------------------------------------------------------

  /** Whatever a flag keeps in memory; its contents do not matter here. */
  datatype FlagMemory = FlagMemory(fields: map<string, string>)

  /** The header of the stale-flag report: "expired flags cleared:". */
  const ClearFlagHeader: string := "已清理过期旗帜:"

  /** `Array.prototype.join`. */
  function Join(parts: seq<string>, separator: string): string
  {
    if parts == [] then ""
    else if |parts| == 1 then parts[0]
    else parts[0] + separator + Join(parts[1..], separator)
  }

  /** `!Memory.sayIndex`: a missing index and index 0 both start at word 0. */
  function SayStart(sayIndex: Option<int>): int
  {
    match sayIndex
    case None => 0
    case Some(i) => i
  }

  /** `words[i]`, or `undefined` outside the list. */
  function WordAt(words: seq<string>, i: int): Option<string>
  {
    if 0 <= i < |words| then Some(words[i]) else None
  }

  /**
   * The say index after one `globalSay` over `wordCount` words: the next
   * word, wrapping to the first after the last.
   */
  function NextSayIndex(wordCount: nat, sayIndex: Option<int>): (next: int)
    ensures 0 <= SayStart(sayIndex) < wordCount ==> next == (SayStart(sayIndex) + 1) % wordCount
    ensures 0 <= SayStart(sayIndex) < wordCount ==> 0 <= next < wordCount
    ensures SayStart(sayIndex) >= wordCount ==> next == 0
  {
    var current := SayStart(sayIndex);
    if current + 1 >= wordCount then 0 else current + 1
  }

  /** The say index after `calls` calls, starting from an empty memory. */
  function SayIndexAfter(wordCount: nat, calls: nat): int
  {
    if calls == 0 then SayStart(None) else NextSayIndex(wordCount, Some(SayIndexAfter(wordCount, calls - 1)))
  }

  /** The creeps cycle through the words in order: call `k` says word `k mod n`. */
  lemma {:induction false} SayIndexCycles(wordCount: nat, calls: nat)
    requires wordCount > 0
    ensures SayIndexAfter(wordCount, calls) == calls % wordCount
  {
    if calls > 0 {
      SayIndexCycles(wordCount, calls - 1);
      var prev := (calls - 1) % wordCount;
      assert SayIndexAfter(wordCount, calls) == (prev + 1) % wordCount;
      ModSuccessor(calls - 1, wordCount);
    }
  }

  lemma ModSuccessor(k: nat, n: nat)
    requires n > 0
    ensures (k % n + 1) % n == (k + 1) % n
  {
    var q, r := k / n, k % n;
    assert k == q * n + r;
    if r + 1 < n {
      ModUnique(k + 1, n, q, r + 1);
      ModUnique(r + 1, n, 0, r + 1);
    } else {
      ModUnique(k + 1, n, q + 1, 0);
      ModUnique(r + 1, n, 1, 0);
    }
  }

  lemma ModUnique(x: int, n: int, q: int, r: int)
    requires n > 0 && 0 <= r < n && x == q * n + r
    ensures x % n == r
  {
    var d := q - x / n;
    assert d * n == q * n - (x / n) * n;
    MulBounds(d, n);
  }

  lemma MulBounds(d: int, n: int)
    requires n > 0
    ensures d >= 1 ==> d * n >= n
    ensures d <= -1 ==> d * n <= -n
  {
    if d >= 1 {
      assert d * n == n + (d - 1) * n;
    } else if d <= -1 {
      assert d * n == -n + (d + 1) * n;
    }
  }

  /** No name occurs twice. */
  predicate Distinct(names: seq<string>)
  {
    forall i, j :: 0 <= i < j < |names| ==> names[i] != names[j]
  }

  /** Flag memory restricted to the flags that still exist. */
  function LiveFlagMemory(flags: map<string, FlagMemory>, liveFlags: set<string>): (kept: map<string, FlagMemory>)
    ensures kept.Keys == flags.Keys * liveFlags
    ensures forall name <- kept :: kept[name] == flags[name]
  {
    map name | name in flags && name in liveFlags :: flags[name]
  }

  /** The global `Memory` object, as far as these routines use it. */
  class Memory {
    var sayIndex: Option<int>
    var flags: map<string, FlagMemory>
    var whiteList: Option<map<string, int>>

    constructor (sayIndex: Option<int>, flags: map<string, FlagMemory>, whiteList: Option<map<string, int>>)
      ensures this.sayIndex == sayIndex && this.flags == flags && this.whiteList == whiteList
    {
      this.sayIndex := sayIndex;
      this.flags := flags;
      this.whiteList := whiteList;
    }

    /**
     * `globalSay`: every creep says the current word (returned here), then the
     * index moves on to the next word, wrapping after the last.
     */
    method GlobalSay(words: seq<string>) returns (spoken: Option<string>)
      modifies this`sayIndex
      ensures spoken == WordAt(words, SayStart(old(sayIndex)))
      ensures sayIndex == Some(NextSayIndex(|words|, old(sayIndex)))
      ensures |words| > 0 && 0 <= SayStart(old(sayIndex)) < |words| ==> 0 <= sayIndex.value < |words|
    {
      if sayIndex.None? || sayIndex == Some(0) {
        sayIndex := Some(0);
      }
      var current := sayIndex.value;
      spoken := if 0 <= current < |words| then Some(words[current]) else None;
      sayIndex := Some(if current + 1 >= |words| then 0 else current + 1);
    }

    /**
     * `clearFlag`: drop the memory of every flag that no longer exists and
     * report the dropped names after a header, space separated.
     */
    method ClearFlag(liveFlags: set<string>) returns (report: string, removed: seq<string>)
      modifies this`flags
      ensures flags == LiveFlagMemory(old(flags), liveFlags)
      ensures forall name :: name in removed <==> name in old(flags) && name !in liveFlags
      ensures Distinct(removed)
      ensures report == Join([ClearFlagHeader] + removed, " ")
    {
      var logs := [ClearFlagHeader];
      removed := [];
      var pending := flags.Keys;
      while pending != {}
        invariant pending <= old(flags).Keys
        invariant flags.Keys == old(flags).Keys * (pending + liveFlags)
        invariant forall name <- flags :: flags[name] == old(flags)[name]
        invariant forall name :: name in removed <==> name in old(flags) && name !in pending && name !in liveFlags
        invariant Distinct(removed)
        invariant logs == [ClearFlagHeader] + removed
        decreases pending
      {
        var name :| name in pending;
        if name !in liveFlags {
          flags := flags - {name};
          removed := removed + [name];
          logs := logs + [name];
        }
        pending := pending - {name};
      }
      assert flags == LiveFlagMemory(old(flags), liveFlags);
      report := Join(logs, " ");
    }

    /**
     * `whiteListFilter`: true when the creep's owner may be attacked. A
     * white-listed owner is spared and its sighting counter goes up by one.
     */
    method WhiteListFilter(owner: string) returns (attackable: bool)
      modifies this`whiteList
      ensures old(whiteList).None? ==> attackable && whiteList == old(whiteList)
      ensures old(whiteList).Some? && owner !in old(whiteList).value ==> attackable && whiteList == old(whiteList)
      ensures old(whiteList).Some? && owner in old(whiteList).value ==>
        !attackable && whiteList == Some(old(whiteList).value[owner := old(whiteList).value[owner] + 1])
    {
      if whiteList.None? {
        return true;
      }
      if owner in whiteList.value {
        whiteList := Some(whiteList.value[owner := whiteList.value[owner] + 1]);
        return false;
      }
      return true;
    }
  }
}
