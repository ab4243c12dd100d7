/** Raw DNS answers made into an answer set: unmapped, filtered by family, without duplicates, and
    sorted in place in a fixed array. */
module Answers {
  import opened Base
  import opened ResolverModel

  /** A raw address: invalid or zoned, four bytes, or sixteen bytes. */
  datatype RawAddr = Bad | Raw4(bits: nat) | Raw6(bits: nat)

  datatype Network = Udp | Udp4 | Udp6

  datatype AnswersError = TooManyRawAnswers | NoAnswers | InvalidAnswer | TooManyAnswers

  /** Addr.Unmap: an IPv4-mapped IPv6 address is the IPv4 address. */
  function Unmap(a: RawAddr): Option<Addr>
  {
    match a
    case Bad => None
    case Raw4(bits) => Some(Addr(false, bits))
    case Raw6(bits) =>
      if bits / UINT32_MODULUS == 0xFFFF then Some(Addr(false, bits % UINT32_MODULUS)) else Some(Addr(true, bits))
  }

  predicate Compatible(n: Network, a: Addr)
  {
    match n
    case Udp => true
    case Udp4 => !a.six
    case Udp6 => a.six
  }

  /** The addresses an answer list stands for on this network. */
  ghost function Wanted(n: Network, raw: seq<RawAddr>): set<Addr>
  {
    set i | 0 <= i < |raw| && Unmap(raw[i]).Some? && Compatible(n, Unmap(raw[i]).value) :: Unmap(raw[i]).value
  }

  ghost predicate AllValid(raw: seq<RawAddr>)
  {
    forall i :: 0 <= i < |raw| ==> raw[i] != Bad
  }

  ghost predicate Distinct(xs: seq<Addr>) { forall i, j :: 0 <= i < j < |xs| ==> xs[i] != xs[j] }

  ghost function Elements(xs: seq<Addr>): set<Addr> { set x | x in xs }

  lemma {:induction false} DistinctCount(xs: seq<Addr>)
    requires Distinct(xs)
    ensures |Elements(xs)| == |xs|
  {
    if xs != [] {
      var init, last := xs[..|xs| - 1], xs[|xs| - 1];
      DistinctCount(init);
      assert last !in Elements(init);
      assert Elements(xs) == Elements(init) + {last};
    }
  }

  lemma WantedNext(n: Network, raw: seq<RawAddr>, k: nat)
    requires k < |raw|
    ensures Wanted(n, raw[..k + 1]) == Wanted(n, raw[..k])
      + match Unmap(raw[k])
        case None => {}
        case Some(a) => if Compatible(n, a) then {a} else {}
  {
    hide Unmap, Compatible;
    assert forall i :: 0 <= i < k ==> raw[..k + 1][i] == raw[..k][i];
    assert raw[..k + 1][k] == raw[k];
  }

  /** A prefix stands for at most as many addresses. */
  lemma WantedGrows(n: Network, raw: seq<RawAddr>, k: nat)
    requires k <= |raw|
    ensures Wanted(n, raw[..k]) <= Wanted(n, raw)
  {
    assert forall i :: 0 <= i < k ==> raw[..k][i] == raw[i];
  }

  /** The sixteen-byte form ::ffff:a.b.c.d of a four-byte address. */
  function Mapped(bits: nat): RawAddr { Raw6(0xFFFF * UINT32_MODULUS + bits) }

  /** An answer list stands for the same addresses whether an IPv4 address comes as four bytes or mapped into
      sixteen: that address on udp and udp4, and nothing on udp6. */
  lemma MappedIsSame(n: Network, before: seq<RawAddr>, bits: nat, after: seq<RawAddr>)
    requires bits < UINT32_MODULUS
    ensures Wanted(n, before + [Raw4(bits)] + after) == Wanted(n, before + [Mapped(bits)] + after)
    ensures Addr(false, bits) in Wanted(n, before + [Mapped(bits)] + after) <==>
      n != Udp6 || Addr(false, bits) in Wanted(n, before + after)
  {
    var four, six, without := before + [Raw4(bits)] + after, before + [Mapped(bits)] + after, before + after;
    assert Unmap(Mapped(bits)) == Unmap(Raw4(bits)) == Some(Addr(false, bits)) by { MappedBack(bits); }
    hide Unmap, Compatible;
    assert forall i :: 0 <= i < |four| ==> Unmap(four[i]) == Unmap(six[i]);
    assert six[|before|] == Mapped(bits);
    assert forall i :: 0 <= i < |without| ==> without[i] == six[if i < |before| then i else i + 1];
  }

  lemma MappedBack(bits: nat)
    requires bits < UINT32_MODULUS
    ensures (0xFFFF * UINT32_MODULUS + bits) / UINT32_MODULUS == 0xFFFF
    ensures (0xFFFF * UINT32_MODULUS + bits) % UINT32_MODULUS == bits
  {}

  /** Every other sixteen-byte address is wanted as itself, on udp and udp6. */
  lemma OtherSixIsItself(n: Network, raw: seq<RawAddr>, bits: nat)
    requires Raw6(bits) in raw && bits / UINT32_MODULUS != 0xFFFF
    ensures n != Udp4 ==> Addr(true, bits) in Wanted(n, raw)
    ensures n == Udp4 ==> Addr(true, bits) !in Wanted(n, raw)
  {}

  /** Sorts the first `count` addresses in place by insertion: the same addresses, in ascending order. */
  method InsertionSort(addresses: array<Addr>, count: nat)
    requires count <= addresses.Length && Distinct(addresses[..count])
    modifies addresses
    ensures Ascending(addresses[..count]) && Elements(addresses[..count]) == Elements(old(addresses[..count]))
  {
    var index := 1;
    while index < count
      invariant count == 0 || 1 <= index <= count
      invariant Ascending(addresses[..if count == 0 then 0 else index]) && Distinct(addresses[..count])
      invariant Elements(addresses[..count]) == Elements(old(addresses[..count]))
    {
      InsertOne(addresses, index, count);
      index := index + 1;
    }
    if count > 0 {
      assert index == count;
    }
  }

  lemma LessIsTotal(a: Addr, b: Addr)
    ensures a == b || Less(a, b) || Less(b, a)
  {}

  /** Moves one address down to its place among the sorted ones before it. */
  method InsertOne(addresses: array<Addr>, index: nat, count: nat)
    requires index < count <= addresses.Length && Ascending(addresses[..index]) && Distinct(addresses[..count])
    modifies addresses
    ensures Ascending(addresses[..index + 1]) && Distinct(addresses[..count])
    ensures Elements(addresses[..count]) == Elements(old(addresses[..count]))
  {
    ghost var before := addresses[..];
    var candidate := addresses[index];
    var position := index;
    while position > 0 && Less(candidate, addresses[position - 1])
      invariant position <= index
      invariant forall k :: 0 <= k < position ==> addresses[k] == before[k]
      invariant forall k :: position < k <= index ==> addresses[k] == before[k - 1] && Less(candidate, addresses[k])
      invariant forall k :: index < k < addresses.Length ==> addresses[k] == before[k]
    {
      addresses[position] := addresses[position - 1];
      position := position - 1;
    }
    addresses[position] := candidate;
    InsertedPlaces(before, addresses[..], position, index, count);
  }

  /** What a rotation of one segment keeps: the elements, their distinctness and the order. */
  lemma InsertedPlaces(before: seq<Addr>, after: seq<Addr>, position: nat, index: nat, count: nat)
    requires position <= index < count <= |before| == |after|
    requires Ascending(before[..index]) && Distinct(before[..count])
    requires after[position] == before[index]
    requires forall k :: 0 <= k < position ==> after[k] == before[k]
    requires forall k :: position < k <= index ==> after[k] == before[k - 1] && Less(before[index], after[k])
    requires forall k :: index < k < |before| ==> after[k] == before[k]
    requires position > 0 ==> !Less(before[index], before[position - 1])
    ensures Ascending(after[..index + 1]) && Distinct(after[..count])
    ensures Elements(after[..count]) == Elements(before[..count])
  {
    forall k | 0 <= k < position
      ensures Less(after[k], before[index])
    {
      assert before[..count][k] != before[..count][index];
      LessIsTotal(before[position - 1], before[index]);
      if k < position - 1 {
        assert Less(before[..index][k], before[..index][position - 1]);
      } else {
        assert before[..count][position - 1] != before[..count][index];
      }
    }
    SameElements(before, after, position, index, count);
  }

  lemma SameElements(before: seq<Addr>, after: seq<Addr>, position: nat, index: nat, count: nat)
    requires position <= index < count <= |before| == |after| && Distinct(before[..count])
    requires after[position] == before[index]
    requires forall k :: 0 <= k < position ==> after[k] == before[k]
    requires forall k :: position < k <= index ==> after[k] == before[k - 1]
    requires forall k :: index < k < |before| ==> after[k] == before[k]
    ensures Distinct(after[..count]) && Elements(after[..count]) == Elements(before[..count])
  {
    forall x
      ensures x in after[..count] <==> x in before[..count]
    {
      if x in after[..count] {
        var k :| 0 <= k < count && after[..count][k] == x;
        assert x == before[..count][if k == position then index else if position < k <= index then k - 1 else k];
      }
      if x in before[..count] {
        var k :| 0 <= k < count && before[..count][k] == x;
        assert x == after[..count][if k == index then position else if position <= k < index then k + 1 else k];
      }
    }
    forall i, j | 0 <= i < j < count
      ensures after[..count][i] != after[..count][j]
    {
      var a := if i == position then index else if position < i <= index then i - 1 else i;
      var b := if j == position then index else if position < j <= index then j - 1 else j;
      assert a != b && after[i] == before[..count][a] && after[j] == before[..count][b];
    }
  }

  /** normalizeResolverAnswers: the set of wanted addresses in ascending order, exactly when the raw list
      is short enough, wholly valid, and wants between one and eight addresses. */
  method NormalizeAnswers(n: Network, raw: seq<RawAddr>) returns (answers: Option<seq<Addr>>, err: Option<AnswersError>)
    ensures answers.Some? <==> err == None
    ensures answers.Some? <==>
      |raw| <= MAX_RAW_ANSWERS && AllValid(raw) && 1 <= |Wanted(n, raw)| <= MAX_ANSWERS
    ensures answers.Some? ==> ValidAnswers(answers.value) && Elements(answers.value) == Wanted(n, raw)
    ensures answers.Some? ==> forall i, j :: 0 <= i < j < |answers.value| ==>
      var a, b := answers.value[i], answers.value[j]; (a.six ==> b.six) && (a.six == b.six ==> a.bits < b.bits)
    ensures err == Some(TooManyRawAnswers) <==> |raw| > MAX_RAW_ANSWERS
    ensures err == Some(NoAnswers) <==> |raw| <= MAX_RAW_ANSWERS && AllValid(raw) && Wanted(n, raw) == {}
    ensures err == Some(TooManyAnswers) ==> |Wanted(n, raw)| > MAX_ANSWERS
    ensures err == Some(InvalidAnswer) ==> !AllValid(raw)
  {
    hide Unmap, Compatible, Wanted, Distinct, Elements;
    if |raw| > MAX_RAW_ANSWERS {
      return None, Some(TooManyRawAnswers);
    }
    var addresses := new Addr[MAX_ANSWERS](_ => Addr(false, 0));
    var count: nat := 0;
    var i := 0;
    NothingWanted(n, raw);
    assert addresses[..0] == [];
    while i < |raw|
      invariant i <= |raw| && count <= MAX_ANSWERS && AllValid(raw[..i])
      invariant Distinct(addresses[..count]) && Elements(addresses[..count]) == Wanted(n, raw[..i])
    {
      WantedNext(n, raw, i);
      UnmapValid(raw[i]);
      var answer := Unmap(raw[i]);
      if answer == None {
        return None, Some(InvalidAnswer);
      }
      assert raw[..i + 1] == raw[..i] + [raw[i]];
      if Compatible(n, answer.value) {
        var included := Include(addresses, count, answer.value);
        if included == None {
          TooMany(n, raw, i, addresses[..count], answer.value);
          return None, Some(TooManyAnswers);
        }
        count := included.value;
      }
      i := i + 1;
    }
    assert raw[..i] == raw;
    DistinctCount(addresses[..count]);
    if count == 0 {
      return None, Some(NoAnswers);
    }
    InsertionSort(addresses, count);
    return Some(addresses[..count]), None;
  }

  /** Eight distinct wanted addresses and one more. */
  lemma TooMany(n: Network, raw: seq<RawAddr>, i: nat, held: seq<Addr>, extra: Addr)
    requires i < |raw| && Distinct(held) && |held| == MAX_ANSWERS && extra !in held
    requires Elements(held) == Wanted(n, raw[..i]) && Wanted(n, raw[..i + 1]) == Wanted(n, raw[..i]) + {extra}
    ensures |Wanted(n, raw)| > MAX_ANSWERS
  {
    hide Wanted;
    DistinctCount(held);
    WantedGrows(n, raw, i + 1);
    SubsetSize(Wanted(n, raw[..i + 1]), Wanted(n, raw));
  }

  /** Adds an address unless it is there already; None when there is no room. */
  method Include(addresses: array<Addr>, count: nat, a: Addr) returns (included: Option<nat>)
    requires count <= MAX_ANSWERS == addresses.Length && Distinct(addresses[..count])
    modifies addresses
    ensures included == None <==> a !in old(addresses[..count]) && count == MAX_ANSWERS
    ensures included == None ==> addresses[..] == old(addresses[..])
    ensures included.Some? ==>
      && included.value <= MAX_ANSWERS && Distinct(addresses[..included.value])
      && Elements(addresses[..included.value]) == Elements(old(addresses[..count])) + {a}
  {
    var duplicate := Holds(addresses, count, a);
    if duplicate {
      return Some(count);
    }
    if count == MAX_ANSWERS {
      return None;
    }
    ghost var was := addresses[..count];
    addresses[count] := a;
    assert addresses[..count + 1] == was + [a];
    return Some(count + 1);
  }

  lemma NothingWanted(n: Network, raw: seq<RawAddr>)
    ensures Wanted(n, raw[..0]) == {} == Elements([]) && Distinct([])
  {}

  lemma UnmapValid(a: RawAddr)
    ensures Unmap(a).Some? <==> a != Bad
  {}

  method Holds(addresses: array<Addr>, count: nat, wanted: Addr) returns (found: bool)
    requires count <= addresses.Length
    ensures found <==> wanted in addresses[..count]
  {
    var i := 0;
    while i < count
      invariant i <= count && wanted !in addresses[..i]
    {
      if addresses[i] == wanted {
        return true;
      }
      i := i + 1;
    }
    return false;
  }
}
