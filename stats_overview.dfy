/** The four status cards above the dashboard's ticket list. */
module StatsOverview {
  import opened Seqs
  import opened Entities

  datatype Stats = Stats(openTickets: nat, inProgressTickets: nat, resolvedTickets: nat, closedTickets: nat)

  function HasStatus(status: string): Ticket -> bool {
    (t: Ticket) => t.status == status
  }

  predicate KnownStatus(status: string) {
    status == Open || status == InProgress || status == Resolved || status == Closed
  }

  function Total(st: Stats): nat {
    st.openTickets + st.inProgressTickets + st.resolvedTickets + st.closedTickets
  }

  /**
   * No ticket is counted twice: the four counts add up to at most the number
   * of tickets, and to exactly that number when every status is one of the four.
   */
  lemma {:induction false} StatusCountsPartition(tickets: seq<Ticket>)
    ensures Count(tickets, HasStatus(Open)) + Count(tickets, HasStatus(InProgress))
          + Count(tickets, HasStatus(Resolved)) + Count(tickets, HasStatus(Closed)) <= |tickets|
    ensures (forall t :: t in tickets ==> KnownStatus(t.status)) ==>
              (Count(tickets, HasStatus(Open)) + Count(tickets, HasStatus(InProgress))
               + Count(tickets, HasStatus(Resolved)) + Count(tickets, HasStatus(Closed)) == |tickets|)
  {
    if tickets != [] {
      StatusCountsPartition(tickets[1..]);
      assert forall t :: t in tickets[1..] ==> t in tickets;
    }
  }

  /** `getStats`: tickets per status, over the list the card row is given. */
  function GetStats(tickets: seq<Ticket>): (st: Stats)
    ensures st.openTickets == Count(tickets, HasStatus(Open))
    ensures st.inProgressTickets == Count(tickets, HasStatus(InProgress))
    ensures st.resolvedTickets == Count(tickets, HasStatus(Resolved))
    ensures st.closedTickets == Count(tickets, HasStatus(Closed))
    ensures Total(st) <= |tickets|
    ensures (forall t :: t in tickets ==> KnownStatus(t.status)) ==> Total(st) == |tickets|
    ensures tickets == [] ==> st == Stats(0, 0, 0, 0)
  {
    StatusCountsPartition(tickets);
    Stats(Count(tickets, HasStatus(Open)), Count(tickets, HasStatus(InProgress)),
          Count(tickets, HasStatus(Resolved)), Count(tickets, HasStatus(Closed)))
  }

  datatype StatCard = StatCard(title: string, value: nat)

  /** The statuses the cards show, in display order. */
  const CardStatuses: seq<string> := [Open, InProgress, Resolved, Closed]

  /** The cards in the order Open, In Progress, Resolved, Closed, each carrying the count of its own status. */
  function StatCards(tickets: seq<Ticket>): (cards: seq<StatCard>)
    ensures |cards| == |CardStatuses| == 4
    ensures cards[0].title == "Open" && cards[1].title == "In Progress"
         && cards[2].title == "Resolved" && cards[3].title == "Closed"
    ensures forall i :: 0 <= i < 4 ==> cards[i].value == Count(tickets, HasStatus(CardStatuses[i]))
  {
    var st := GetStats(tickets);
    [StatCard("Open", st.openTickets), StatCard("In Progress", st.inProgressTickets),
     StatCard("Resolved", st.resolvedTickets), StatCard("Closed", st.closedTickets)]
  }
}
