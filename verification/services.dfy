/** The fixed collection of accounts the service answers from
    (internal/services/services.go). */
module Services {
  import opened Model

  /** `services.Accounts`, assigned once at start-up and never changed: twelve
      records. */
  function Accounts(): (s: seq<AccountInfo>)
    ensures |s| == 12
  {
    [
      AccountInfo("Prateek", 12323532, 10000, 5000, SAVING, OK),
      AccountInfo("Mandal", 564678345, 10000, 5000, SAVING, OK),
      AccountInfo("Poulami", 14654758353, 10000, 5000, SAVING, OK),
      AccountInfo("Manna", 253454364, 10000, 5000, SAVING, OK),
      AccountInfo("Steve", 234563462, 10000, 5000, GL, WARN),
      AccountInfo("Gerard", 68765545, 10000, 5000, GL, OK),
      AccountInfo("Butler", 54675673, 10000, 5000, CURRENT, OK),
      AccountInfo("Monka", 86786564, 10000, 5000, OVERDRAFT, SUB1),
      AccountInfo("Monke", 36747353, 10000, 5000, OVERDRAFT, DELINQUENT),
      AccountInfo("Casandra", 36547325, 10000, 5000, OVERDRAFT, OVERDUE30),
      AccountInfo("Mongo", 35465735, 10000, 5000, OVERDRAFT, WARN),
      AccountInfo("Redis", 246375378, 10000, 5000, OVERDRAFT, SUB3)
    ]
  }

  /** How many records of `s`, from position `k` on, have type `t`. */
  function CountTypeFrom(s: seq<AccountInfo>, k: nat, t: AccountType): nat
    decreases |s| - k
  {
    if k >= |s| then 0 else (if s[k].accType == t then 1 else 0) + CountTypeFrom(s, k + 1, t)
  }

  /** How many records of `s`, from position `k` on, have health `h`. */
  function CountHealthFrom(s: seq<AccountInfo>, k: nat, h: AccountHealth): nat
    decreases |s| - k
  {
    if k >= |s| then 0 else (if s[k].accHealth == h then 1 else 0) + CountHealthFrom(s, k + 1, h)
  }

  function CountType(s: seq<AccountInfo>, t: AccountType): nat
  {
    CountTypeFrom(s, 0, t)
  }

  function CountHealth(s: seq<AccountInfo>, h: AccountHealth): nat
  {
    CountHealthFrom(s, 0, h)
  }

  /** All seed records have balance 10000 and holdings 5000, and every type
      and health is one of the named constants. */
  lemma SeedShape()
    ensures forall a :: a in Accounts() ==> a.balance == 10000 && a.holdings == 5000
    ensures forall a :: a in Accounts() ==> a.accType in AllTypes && a.accHealth in AllHealths
  {
  }

  /** Record identifiers are positive and pairwise distinct; the third one
      needs more than 32 bits. */
  lemma SeedCrns()
    ensures forall a :: a in Accounts() ==> a.crn > 0
    ensures forall i, j :: 0 <= i < j < |Accounts()| ==> Accounts()[i].crn != Accounts()[j].crn
    ensures Accounts()[2].crn == 14654758353 && Accounts()[2].crn > 0x7FFF_FFFF
  {
    var s := Accounts();
    assert s[0].crn == 12323532 && s[1].crn == 564678345 && s[2].crn == 14654758353
      && s[3].crn == 253454364 && s[4].crn == 234563462 && s[5].crn == 68765545
      && s[6].crn == 54675673 && s[7].crn == 86786564 && s[8].crn == 36747353
      && s[9].crn == 36547325 && s[10].crn == 35465735 && s[11].crn == 246375378;
    forall i, j | 0 <= i < j < 12
      ensures s[i].crn != s[j].crn
    {
      // one case per row keeps each comparison between two literals
      if i == 0 {} else if i == 1 {} else if i == 2 {} else if i == 3 {} else if i == 4 {}
      else if i == 5 {} else if i == 6 {} else if i == 7 {} else if i == 8 {} else if i == 9 {}
    }
  }

  /** The number of seed records of any type `t`: each named type with its
      count, and 0 for every other string. */
  lemma SeedTypeCount(t: AccountType)
    ensures CountType(Accounts(), t) ==
      (if t == SAVING then 4 else 0) + (if t == GL then 2 else 0) +
      (if t == CURRENT then 1 else 0) + (if t == OVERDRAFT then 5 else 0)
  {
    var s := Accounts();
    // counted from the end, five records at a time
    assert CountTypeFrom(s, 7, t) == (if t == OVERDRAFT then 5 else 0);
    assert CountTypeFrom(s, 3, t) ==
      (if t == SAVING then 1 else 0) + (if t == GL then 2 else 0) +
      (if t == CURRENT then 1 else 0) + (if t == OVERDRAFT then 5 else 0);
  }

  /** The number of seed records of any health `h`: each used health with its
      count, and 0 for every other string, `SUB2` and `OVERDUE90` included. */
  lemma SeedHealthCount(h: AccountHealth)
    ensures CountHealth(Accounts(), h) ==
      (if h == OK then 6 else 0) + (if h == WARN then 2 else 0) + (if h == SUB1 then 1 else 0) +
      (if h == SUB3 then 1 else 0) + (if h == OVERDUE30 then 1 else 0) + (if h == DELINQUENT then 1 else 0)
  {
    var s := Accounts();
    assert CountHealthFrom(s, 10, h) ==
      (if h == WARN then 1 else 0) + (if h == SUB3 then 1 else 0);
    assert CountHealthFrom(s, 7, h) ==
      (if h == WARN then 1 else 0) + (if h == SUB1 then 1 else 0) + (if h == SUB3 then 1 else 0) +
      (if h == OVERDUE30 then 1 else 0) + (if h == DELINQUENT then 1 else 0);
    assert CountHealthFrom(s, 5, h) ==
      (if h == OK then 2 else 0) + (if h == WARN then 1 else 0) + (if h == SUB1 then 1 else 0) +
      (if h == SUB3 then 1 else 0) + (if h == OVERDUE30 then 1 else 0) + (if h == DELINQUENT then 1 else 0);
    assert CountHealthFrom(s, 3, h) ==
      (if h == OK then 3 else 0) + (if h == WARN then 2 else 0) + (if h == SUB1 then 1 else 0) +
      (if h == SUB3 then 1 else 0) + (if h == OVERDUE30 then 1 else 0) + (if h == DELINQUENT then 1 else 0);
  }

  /** Type counts: 4 savings, 2 GL, 1 current, 5 overdraft. */
  lemma SeedTypeCounts()
    ensures CountType(Accounts(), SAVING) == 4
    ensures CountType(Accounts(), GL) == 2
    ensures CountType(Accounts(), CURRENT) == 1
    ensures CountType(Accounts(), OVERDRAFT) == 5
  {
    assert SAVING != GL && SAVING != CURRENT && SAVING != OVERDRAFT;
    assert GL != CURRENT && GL != OVERDRAFT && CURRENT != OVERDRAFT;
    SeedTypeCount(SAVING);
    SeedTypeCount(GL);
    SeedTypeCount(CURRENT);
    SeedTypeCount(OVERDRAFT);
  }

  /** Health counts; `SUB2` and `OVERDUE90` are not used. */
  lemma SeedHealthCounts()
    ensures CountHealth(Accounts(), OK) == 6
    ensures CountHealth(Accounts(), WARN) == 2
    ensures CountHealth(Accounts(), SUB1) == 1
    ensures CountHealth(Accounts(), SUB2) == 0
    ensures CountHealth(Accounts(), SUB3) == 1
    ensures CountHealth(Accounts(), OVERDUE30) == 1
    ensures CountHealth(Accounts(), OVERDUE90) == 0
    ensures CountHealth(Accounts(), DELINQUENT) == 1
  {
    assert SUB1 != SUB2 && SUB1 != SUB3 && SUB2 != SUB3 && OVERDUE30 != OVERDUE90;
    assert OK != WARN && OK != SUB1 && OK != SUB3 && OK != OVERDUE30 && OK != DELINQUENT;
    assert WARN != SUB1 && WARN != SUB3 && WARN != OVERDUE30 && WARN != DELINQUENT;
    assert SUB1 != OVERDUE30 && SUB1 != DELINQUENT && SUB3 != OVERDUE30 && SUB3 != DELINQUENT;
    assert OVERDUE30 != DELINQUENT && SUB2 != OK && SUB2 != WARN && SUB2 != OVERDUE30 && SUB2 != DELINQUENT;
    assert OVERDUE90 != OK && OVERDUE90 != WARN && OVERDUE90 != SUB1 && OVERDUE90 != SUB3 && OVERDUE90 != DELINQUENT;
    SeedHealthCount(OK);
    SeedHealthCount(WARN);
    SeedHealthCount(SUB1);
    SeedHealthCount(SUB2);
    SeedHealthCount(SUB3);
    SeedHealthCount(OVERDUE30);
    SeedHealthCount(OVERDUE90);
    SeedHealthCount(DELINQUENT);
  }
}
