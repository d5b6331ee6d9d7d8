/** An account: an identifier fixed at construction and a balance that the
    transfer service overwrites in place. Equality and hashing look at the
    identifier only. */
module Accounts {
  import opened JavaLang

  const IdLabel: string := "Account[id = "
  const MoneyLabel: string := ", money = "

  class Account {
    const id: string
    var money: int

    constructor (id: string, initialMoney: int)
      ensures this.id == id && money == initialMoney
    {
      this.id := id;
      this.money := initialMoney;
    }

    function GetId(): (r: string)
      ensures r == id
    {
      id
    }

    function GetMoney(): (r: int)
      reads this
      ensures r == money
    {
      money
    }

    /** Overwrites the balance; the identifier is a constant field, so it
        cannot change. */
    method SetMoney(money: int)
      modifies this`money
      ensures GetMoney() == money
    {
      this.money := money;
    }

    /** Identity first, then "same class and same identifier"; the balance
        plays no part. */
    function Equals(o: object?): (r: bool)
      ensures o == this ==> r
      ensures o == null ==> !r
      ensures r <==> o is Account && (o as Account).id == id
    {
      if this == o then true
      else if o == null || !(o is Account) then false
      else (o as Account).id == id
    }

    /** Objects.hash over the identifier alone. */
    function HashCode(): (h: int)
      ensures IsInt32(h)
    {
      ObjectsHash1(StringHashCode(id))
    }

    /** "Account[id = <id>, money = <money>]": the identifier and the
        balance can be read back from their places in the text. */
    function ToString(): (r: string)
      reads this
      ensures |r| == |IdLabel| + |id| + |MoneyLabel| + |IntToString(money)| + 1
      ensures r[..|IdLabel|] == IdLabel
      ensures r[|IdLabel|..|IdLabel| + |id|] == id
      ensures r[|IdLabel| + |id|..|IdLabel| + |id| + |MoneyLabel|] == MoneyLabel
      ensures ParseInt(r[|IdLabel| + |id| + |MoneyLabel|..|r| - 1]) == Some(money)
      ensures r[|r| - 1] == ']'
    {
      var digits := IntToString(money);
      IntToStringRoundTrip(money);
      var r := IdLabel + id + MoneyLabel + digits + "]";
      var i, j := |IdLabel|, |IdLabel| + |id|;
      var k := j + |MoneyLabel|;
      assert r[..i] == IdLabel;
      assert r[i..j] == id;
      assert r[j..k] == MoneyLabel;
      assert r[k..|r| - 1] == digits;
      r
    }
  }

  /** Equal accounts have equal hash codes. */
  lemma HashCodeConsistent(a: Account, b: Account)
    requires a.Equals(b)
    ensures a.HashCode() == b.HashCode()
  {
  }

  /** Equality is symmetric, whatever the two balances are. */
  lemma EqualsSymmetric(a: Account, b: Account)
    ensures a.Equals(b) <==> b.Equals(a)
  {
  }
}
