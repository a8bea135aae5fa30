/**
 * The client list page: the status tabs that filter the client table,
 * the tax-filing status labels, and the avatar initials shown when a
 * client has no picture.
 */
module Clients {
  import opened Common
  import opened Text

  datatype ClientStatus = Active | Pending | Completed
  datatype TaxFileStatus = NotStarted | Processing | AlmostReady | TaxCompleted

  datatype Client = Client(id: string, name: string, email: string, phone: string, company: string,
                           status: ClientStatus, taxFileStatus: TaxFileStatus, taxReturns: int,
                           image: Option<string>)

  /** The selected tab: "all", or one of the three statuses. */
  datatype Tab = AllTab | StatusTab(status: ClientStatus)

  /** The seven demo clients; their ids, the table's row keys, are distinct. */
  function MockClients(): (r: seq<Client>)
    ensures |r| == 7
    ensures forall i, j :: 0 <= i < j < |r| ==> r[i].id != r[j].id
  {
    [ Client("1", "Robert Johnson", "robert@johnsonllc.com", "(555) 123-4567", "Johnson LLC",
             Active, Processing, 3, None),
      Client("2", "Susan Smith", "susan@smithenterprises.com", "(555) 234-5678", "Smith Enterprises",
             Pending, NotStarted, 1, None),
      Client("3", "David Lee", "david@acmecorp.com", "(555) 345-6789", "Acme Corporation",
             Completed, TaxCompleted, 2, None),
      Client("4", "Maria Garcia", "maria@techstart.com", "(555) 456-7890", "Tech Startups Inc",
             Active, AlmostReady, 2, None),
      Client("5", "James Wilson", "james@wilsongroup.com", "(555) 567-8901", "Wilson Group",
             Active, Processing, 1, None),
      Client("6", "Patricia Moore", "patricia@mooreservices.com", "(555) 678-9012", "Moore Professional Services",
             Completed, TaxCompleted, 4, None),
      Client("7", "Michael Taylor", "michael@taylorconsulting.com", "(555) 789-0123", "Taylor Consulting",
             Pending, NotStarted, 1, None) ]
  }

  /** The tab's row predicate: every client on "all", else a status match. */
  function ShownOn(tab: Tab): (shown: Client -> bool)
    ensures forall c :: shown(c) <==> tab == AllTab || c.status == tab.status
  {
    (c: Client) => match tab
         case AllTab => true
         case StatusTab(st) => c.status == st
  }

  /** The rows of the client table for the selected tab. */
  function VisibleClients(tab: Tab, clients: seq<Client>): (r: seq<Client>)
    ensures IsSubsequence(r, clients)
    ensures tab == AllTab ==> r == clients
    ensures tab.StatusTab? ==> forall c :: c in r <==> c in clients && c.status == tab.status
  {
    FilterIsSubsequence(ShownOn(tab), clients);
    if tab == AllTab then
      FilterKeepsAll(ShownOn(tab), clients);
      Filter(ShownOn(tab), clients)
    else
      Filter(ShownOn(tab), clients)
  }

  /** Each status tab keeps every matching client exactly as often as the
      list holds it, in list order. */
  lemma StatusTabKeepsCounts(st: ClientStatus, clients: seq<Client>)
    ensures forall c :: multiset(VisibleClients(StatusTab(st), clients))[c]
                     == if c.status == st then multiset(clients)[c] else 0
  {
    FilterCount(ShownOn(StatusTab(st)), clients);
  }

  /** Re-filtering a tab's rows by the same tab changes nothing. */
  lemma VisibleIdempotent(tab: Tab, clients: seq<Client>)
    ensures VisibleClients(tab, VisibleClients(tab, clients)) == VisibleClients(tab, clients)
  {
    FilterIdempotent(ShownOn(tab), clients);
  }

  /** The Active, Pending and Completed tabs together show the whole list,
      each client on exactly one of them. */
  lemma StatusTabsPartition(clients: seq<Client>)
    ensures multiset(VisibleClients(StatusTab(Active), clients))
          + multiset(VisibleClients(StatusTab(Pending), clients))
          + multiset(VisibleClients(StatusTab(Completed), clients))
         == multiset(clients)
  {
    var a := multiset(VisibleClients(StatusTab(Active), clients));
    var p := multiset(VisibleClients(StatusTab(Pending), clients));
    var c := multiset(VisibleClients(StatusTab(Completed), clients));
    StatusTabKeepsCounts(Active, clients);
    StatusTabKeepsCounts(Pending, clients);
    StatusTabKeepsCounts(Completed, clients);
    forall x
      ensures (a + p + c)[x] == multiset(clients)[x]
    {
      assert a[x] == if x.status == Active then multiset(clients)[x] else 0;
      assert p[x] == if x.status == Pending then multiset(clients)[x] else 0;
      assert c[x] == if x.status == Completed then multiset(clients)[x] else 0;
    }
  }

  /** On the demo data the Pending tab shows Susan Smith and Michael Taylor. */
  lemma PendingTabOnMockClients()
    ensures VisibleClients(StatusTab(Pending), MockClients()) == [MockClients()[1], MockClients()[6]]
  {
    var cs := MockClients();
    PendingOfSeven(cs);
  }

  /** A list of seven clients whose statuses are those of the demo data. */
  lemma PendingOfSeven(cs: seq<Client>)
    requires |cs| == 7
    requires cs[0].status == Active && cs[1].status == Pending && cs[2].status == Completed
    requires cs[3].status == Active && cs[4].status == Active && cs[5].status == Completed
    requires cs[6].status == Pending
    ensures VisibleClients(StatusTab(Pending), cs) == [cs[1], cs[6]]
  {
    var p := ShownOn(StatusTab(Pending));
    assert !p(cs[0]) && p(cs[1]) && p(cs[6]);
    assert cs == [cs[0], cs[1]] + [cs[2], cs[3], cs[4], cs[5]] + [cs[6]];
    FilterAppend(p, [cs[0], cs[1]] + [cs[2], cs[3], cs[4], cs[5]], [cs[6]]);
    FilterAppend(p, [cs[0], cs[1]], [cs[2], cs[3], cs[4], cs[5]]);
    FilterKeepsAll(p, [cs[6]]);
    FilterKeepsNone(p, [cs[2], cs[3], cs[4], cs[5]]);
  }

  /** `getTaxStatusText`; its `default` branch is unreachable for the four statuses. */
  function TaxStatusText(status: TaxFileStatus): (text: string)
    ensures text != "Unknown"
  {
    match status
    case NotStarted => "Not Started"
    case Processing => "Processing"
    case AlmostReady => "Almost Ready"
    case TaxCompleted => "Completed"
  }

  /** Different statuses get different labels. */
  lemma TaxStatusTextInjective(a: TaxFileStatus, b: TaxFileStatus)
    ensures TaxStatusText(a) == TaxStatusText(b) ==> a == b
  {
  }

  /** `.map(n => n[0]).join('')`: the first character of each piece; an
      empty piece contributes `undefined`, which `join` prints as nothing. */
  function Heads(words: seq<string>): (r: string)
    ensures |r| <= |words|
  {
    if words == [] then ""
    else (if words[0] == "" then "" else [words[0][0]]) + Heads(words[1..])
  }

  /** Every initial is the first character of some non-empty piece. */
  lemma {:induction false} HeadsFromPieces(words: seq<string>)
    ensures forall i :: 0 <= i < |Heads(words)| ==>
      exists j :: 0 <= j < |words| && words[j] != [] && words[j][0] == Heads(words)[i]
  {
    if words != [] {
      HeadsFromPieces(words[1..]);
      var h := if words[0] == "" then "" else [words[0][0]];
      var rest := Heads(words[1..]);
      assert Heads(words) == h + rest;
      forall i | 0 <= i < |Heads(words)|
        ensures exists j :: 0 <= j < |words| && words[j] != [] && words[j][0] == Heads(words)[i]
      {
        if i < |h| {
          assert words[0] != [] && words[0][0] == Heads(words)[i];
        } else {
          assert Heads(words)[i] == rest[i - |h|];
          var j :| 0 <= j < |words[1..]| && words[1..][j] != [] && words[1..][j][0] == rest[i - |h|];
          assert words[j + 1] == words[1..][j];
        }
      }
    } else {
      assert Heads(words) == "";
    }
  }

  /** The avatar fallback: `name.split(' ').map(n => n[0]).join('')`. */
  function Initials(name: string): (r: string)
    ensures |r| <= |Split(name)|
  {
    Heads(Split(name))
  }

  /** The initials never hold a space: no piece of the split name does. */
  lemma InitialsHaveNoSpace(name: string)
    ensures ' ' !in Initials(name)
  {
    var words := Split(name);
    HeadsFromPieces(words);
    forall i | 0 <= i < |Initials(name)|
      ensures Initials(name)[i] != ' '
    {
      var j :| 0 <= j < |words| && words[j] != [] && words[j][0] == Initials(name)[i];
      assert words[j] in words;
    }
  }

  lemma {:induction false} HeadsAppend(a: seq<string>, b: seq<string>)
    ensures Heads(a + b) == Heads(a) + Heads(b)
  {
    if a == [] {
      assert a + b == b;
    } else {
      assert (a + b)[0] == a[0] && (a + b)[1..] == a[1..] + b;
      HeadsAppend(a[1..], b);
    }
  }

  /** Splitting around one space splits each side separately. */
  lemma {:induction false} SplitAround(a: string, b: string)
    ensures Split(a + " " + b) == Split(a) + Split(b)
  {
    if a == [] {
      assert a + " " + b == [' '] + b;
      assert ([' '] + b)[1..] == b;
    } else {
      var s := a + " " + b;
      assert s[0] == a[0] && s[1..] == a[1..] + " " + b;
      SplitAround(a[1..], b);
    }
  }

  /** The initials of two names joined by a space are the initials of the
      first followed by those of the second. */
  lemma InitialsAppend(a: string, b: string)
    ensures Initials(a + " " + b) == Initials(a) + Initials(b)
  {
    SplitAround(a, b);
    HeadsAppend(Split(a), Split(b));
  }

  /** A single word gives its first letter. */
  lemma InitialsOfWord(w: string)
    requires w != [] && ' ' !in w
    ensures Initials(w) == [w[0]]
  {
    SplitNoSpace(w);
  }

  /** "Robert Johnson" shows as "RJ". */
  lemma InitialsOfFirstLast(first: string, last: string)
    requires first != [] && ' ' !in first && last != [] && ' ' !in last
    ensures Initials(first + " " + last) == [first[0], last[0]]
  {
    InitialsAppend(first, last);
    InitialsOfWord(first);
    InitialsOfWord(last);
  }
}
