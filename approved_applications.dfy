/** The admin page listing approved applications: a filter over the store's
    list, then one card per kept record. */
module ApprovedApplications {
  import opened Common
  import opened Records

  predicate IsApproved(app: LoanRecord) {
    app.status == Some("approved")
  }

  /** `applications.filter(app => app.status === "approved")`. */
  function Approved(apps: seq<LoanRecord>): (r: seq<LoanRecord>)
    ensures |r| <= |apps|
    ensures forall x :: x in r ==> IsApproved(x)
  {
    if apps == [] then []
    else (if IsApproved(apps[0]) then [apps[0]] else []) + Approved(apps[1..])
  }

  /** Every approved record is kept as often as it occurs, every other one dropped. */
  lemma {:induction false} ApprovedCounts(apps: seq<LoanRecord>, x: LoanRecord)
    ensures multiset(Approved(apps))[x] == if IsApproved(x) then multiset(apps)[x] else 0
    decreases |apps|
  {
    if apps != [] {
      assert apps == [apps[0]] + apps[1..];
      ApprovedCounts(apps[1..], x);
    }
  }

  /** A record is listed exactly when it is in the store and approved. */
  lemma {:induction false} ApprovedMembership(apps: seq<LoanRecord>, x: LoanRecord)
    ensures x in Approved(apps) <==> x in apps && IsApproved(x)
  {
    ApprovedCounts(apps, x);
    assert x in Approved(apps) <==> multiset(Approved(apps))[x] > 0;
    assert x in apps <==> multiset(apps)[x] > 0;
  }

  /** The filter keeps store order: filtering a concatenation is
      concatenating the filtered parts. */
  lemma {:induction false} ApprovedDistributes(a: seq<LoanRecord>, b: seq<LoanRecord>)
    ensures Approved(a + b) == Approved(a) + Approved(b)
    decreases |a|
  {
    if a == [] {
      assert a + b == b;
    } else {
      assert (a + b)[0] == a[0] && (a + b)[1..] == a[1..] + b;
      ApprovedDistributes(a[1..], b);
    }
  }

  /** Filtering twice is filtering once. */
  lemma {:induction false} ApprovedIdempotent(apps: seq<LoanRecord>)
    ensures Approved(Approved(apps)) == Approved(apps)
    decreases |apps|
  {
    if apps != [] {
      var head := if IsApproved(apps[0]) then [apps[0]] else [];
      ApprovedDistributes(head, Approved(apps[1..]));
      ApprovedIdempotent(apps[1..]);
      if IsApproved(apps[0]) {
        assert Approved(head) == head by {
          assert head[1..] == [];
        }
      }
    }
  }

  /** `key={app._id || i}`. */
  datatype Key = IdKey(id: string) | IndexKey(index: nat)

  /** What a card shows that the page computes: its key, the id in its
      header, and the two money lines, which both read `riskScore`
      (`None` is shown as "N/A"; number formatting is not modelled). */
  datatype Card = Card(key: Key, header: string, payment: Option<real>, balance: Option<real>)

  /** `app._id ? app._id.substring(0, 8) + '...' : 'N/A'`. */
  function Header(id: Option<string>): (h: string)
    ensures Truthy(id) ==> h == id.value[..Min(8, |id.value|)] + "..."
    ensures !Truthy(id) ==> h == "N/A"
  {
    if Truthy(id) then id.value[..Min(8, |id.value|)] + "..." else "N/A"
  }

  function CardFor(app: LoanRecord, i: nat): (c: Card)
    ensures Truthy(app.id) ==> c.key == IdKey(app.id.value)
    ensures !Truthy(app.id) ==> c.key == IndexKey(i)
    ensures c.header == Header(app.id)
    ensures c.payment == c.balance == app.riskScore
  {
    Card(if Truthy(app.id) then IdKey(app.id.value) else IndexKey(i), Header(app.id), app.riskScore, app.riskScore)
  }

  /** The header of a record with an id is at most eleven characters long. */
  lemma HeaderLength(id: string)
    requires id != ""
    ensures |Header(Some(id))| <= 11
  {
  }

  function CardsFrom(apps: seq<LoanRecord>, from: nat): (cs: seq<Card>)
    ensures |cs| == |apps|
    ensures forall i :: 0 <= i < |apps| ==> cs[i] == CardFor(apps[i], from + i)
    decreases |apps|
  {
    if apps == [] then [] else [CardFor(apps[0], from)] + CardsFrom(apps[1..], from + 1)
  }

  datatype Screen = NoneFound | Cards(cards: seq<Card>)

  const NoneFoundText: string := "No Approved Loan Applications Found!"

  /** The page for a store list: the empty message when nothing is approved,
      otherwise one card per approved record, in store order. */
  function Render(applications: seq<LoanRecord>): (s: Screen)
    ensures s == NoneFound <==> forall x :: x in applications ==> !IsApproved(x)
    ensures s.Cards? ==> |s.cards| == |Approved(applications)| &&
                         forall i :: 0 <= i < |s.cards| ==> s.cards[i] == CardFor(Approved(applications)[i], i)
  {
    var approved := Approved(applications);
    if approved == [] then
      assert forall x :: x in applications ==> !IsApproved(x) by {
        forall x | x in applications
          ensures !IsApproved(x)
        {
          ApprovedMembership(applications, x);
        }
      }
      NoneFound
    else
      assert approved[0] in applications by {
        ApprovedMembership(applications, approved[0]);
      }
      Cards(CardsFrom(approved, 0))
  }
}
