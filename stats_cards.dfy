/**
 * The four statistic cards above the message list: the number of messages
 * and the number in three categories. "Pessoal" is counted but not shown.
 */
module StatsCards {
  import opened Wrappers
  import opened JsArrays
  import opened Mail

  const TotalName: string := "Total de E-mails"

  /** The card titles, in display order; also what the loading state shows. */
  const Names: seq<string> := [TotalName, "Trabalho", "Promoções", "Notificações"]

  predicate HasCategory(m: Message, name: string) {
    m.category == Some(name)
  }

  /** `messages.filter(e => e.category === name).length`. */
  function Count(ms: seq<Message>, name: string): (n: nat)
    ensures n <= |ms|
  {
    |Filter(ms, m => HasCategory(m, name))|
  }

  /** The `categories` object. */
  datatype Categories = Categories(trabalho: nat, pessoal: nat, promocoes: nat, notificacoes: nat)

  function CountCategories(ms: seq<Message>): Categories {
    Categories(Count(ms, "Trabalho"), Count(ms, "Pessoal"), Count(ms, "Promoções"), Count(ms, "Notificações"))
  }

  datatype Stat = Stat(name: string, stat: nat)

  /** What the component renders: name templates while loading, the four numbers otherwise. */
  datatype StatsView = Loading(names: seq<string>) | Shown(stats: seq<Stat>)

  function Render(ms: seq<Message>, isLoading: bool): (r: StatsView)
    ensures isLoading <==> r.Loading?
    ensures r.Loading? ==> r.names == Names
    ensures r.Shown? ==> |r.stats| == 4
                         && (forall k :: 0 <= k < 4 ==> r.stats[k].name == Names[k])
                         && r.stats[0].stat == |ms|
                         && (forall k :: 1 <= k < 4 ==> r.stats[k].stat == Count(ms, Names[k]))
  {
    if isLoading then Loading(Names)
    else
      var categories := CountCategories(ms);
      Shown([Stat(TotalName, |ms|),
             Stat("Trabalho", categories.trabalho),
             Stat("Promoções", categories.promocoes),
             Stat("Notificações", categories.notificacoes)])
  }

  /** Counting a concatenation adds the counts. */
  lemma CountAppend(a: seq<Message>, b: seq<Message>, name: string)
    ensures Count(a + b, name) == Count(a, name) + Count(b, name)
  {
    FilterAppend(a, b, m => HasCategory(m, name));
  }

  /** The four counts together. */
  function CategorySum(c: Categories): nat {
    c.trabalho + c.pessoal + c.promocoes + c.notificacoes
  }

  /** A single message is counted under its own category and no other. */
  lemma CountOne(m: Message, name: string)
    ensures Count([m], name) == if HasCategory(m, name) then 1 else 0
  {
    assert Filter([m], m => HasCategory(m, name)) == if HasCategory(m, name) then [m] else [];
  }

  /** A single message adds at most one to the four counts, and exactly one when it has one of the four categories. */
  lemma SingleSum(m: Message)
    ensures CategorySum(CountCategories([m])) <= 1
    ensures m.category.Some? && m.category.value in ["Trabalho", "Pessoal", "Promoções", "Notificações"] ==>
              CategorySum(CountCategories([m])) == 1
  {
    CountOne(m, "Trabalho");
    CountOne(m, "Pessoal");
    CountOne(m, "Promoções");
    CountOne(m, "Notificações");
    if m.category.Some? {
      var c := m.category.value;
      assert |"Trabalho"| == 8 && |"Pessoal"| == 7 && |"Promoções"| == 9 && |"Notificações"| == 12;
      assert c == "Trabalho" ==> |c| == 8;
      assert c == "Pessoal" ==> |c| == 7;
      assert c == "Promoções" ==> |c| == 9;
      assert c == "Notificações" ==> |c| == 12;
    }
  }

  /** The counts of a non-empty list are those of its head plus those of its tail. */
  lemma SumSplit(ms: seq<Message>)
    requires ms != []
    ensures CategorySum(CountCategories(ms)) == CategorySum(CountCategories([ms[0]])) + CategorySum(CountCategories(ms[1..]))
  {
    assert ms == [ms[0]] + ms[1..];
    CountAppend([ms[0]], ms[1..], "Trabalho");
    CountAppend([ms[0]], ms[1..], "Pessoal");
    CountAppend([ms[0]], ms[1..], "Promoções");
    CountAppend([ms[0]], ms[1..], "Notificações");
  }

  /** A message has one category, so the four counts together never exceed the total. */
  lemma {:induction false} CountsWithinTotal(ms: seq<Message>)
    ensures CategorySum(CountCategories(ms)) <= |ms|
  {
    if ms != [] {
      CountsWithinTotal(ms[1..]);
      SumSplit(ms);
      SingleSum(ms[0]);
    }
  }

  /** When every message has one of the four categories, the counts add up to the total. */
  lemma {:induction false} CountsCoverTotal(ms: seq<Message>)
    requires forall k :: 0 <= k < |ms| ==>
               ms[k].category.Some? && ms[k].category.value in ["Trabalho", "Pessoal", "Promoções", "Notificações"]
    ensures CategorySum(CountCategories(ms)) == |ms|
  {
    if ms != [] {
      CountsCoverTotal(ms[1..]);
      SumSplit(ms);
      SingleSum(ms[0]);
    }
  }
}
