/**
  Selecting an nlopt algorithm by name: the table of supported names, the
  first-match lookup over it, and the error message raised for a name that
  is not in the table.
 */
module AlgorithmNaming {
  import opened Wrappers
  import opened Nlopt

  /** An error raised by the wrapper. `Conversion` stands for a failed
      conversion of a configuration entry, whose message is not modelled. */
  datatype Error = Exception(message: string) | Conversion(key: string)

  datatype Association = Association(name: string, algorithm: Algorithm)

  /** The supported algorithms, in table order. */
  const SupportedAlgorithms: seq<Association> := [
    Association("LBFGS_NOCEDAL", LdLbfgsNocedal),
    Association("LBFGS", LdLbfgs),
    Association("VAR1", LdVar1),
    Association("VAR2", LdVar2),
    Association("TNEWTON", LdTnewton),
    Association("TNEWTON_RESTART", LdTnewtonRestart),
    Association("TNEWTON_PRECOND", LdTnewtonPrecond),
    Association("TNEWTON_PRECOND_RESTART", LdTnewtonPrecondRestart),
    Association("MMA", LdMma),
    Association("CCSAQ", LdCcsaq)
  ]

  /** The algorithm of the first entry of `table` called `name`. */
  function Lookup(table: seq<Association>, name: string): (r: Option<Algorithm>)
    ensures r.None? <==> forall i :: 0 <= i < |table| ==> table[i].name != name
    ensures r.Some? ==> exists i :: (0 <= i < |table| && table[i].name == name &&
      table[i].algorithm == r.value && forall j :: 0 <= j < i ==> table[j].name != name)
  {
    if table == [] then None
    else if table[0].name == name then
      Some(table[0].algorithm)
    else
      var r := Lookup(table[1..], name);
      assert forall i :: 1 <= i < |table| ==> table[1..][i - 1] == table[i];
      r
  }

  predicate DistinctNames(table: seq<Association>) {
    forall i, j :: 0 <= i < j < |table| ==> table[i].name != table[j].name
  }

  /** The names of `table`, in order. */
  function Names(table: seq<Association>): (r: seq<string>)
    ensures |r| == |table|
    ensures forall i :: 0 <= i < |table| ==> r[i] == table[i].name
  {
    if table == [] then [] else
      var r := [table[0].name] + Names(table[1..]);
      assert forall i :: 1 <= i < |table| ==> r[i] == Names(table[1..])[i - 1];
      r
  }

  /** Every name of `table`, each preceded by one space. */
  function NameList(table: seq<Association>): string {
    if table == [] then "" else " " + table[0].name + NameList(table[1..])
  }

  /** The text that precedes the list of supported names. */
  function MessageHead(name: string): string {
    "Unsupported algorithm name: \"" + name + "\"\nSupported:"
  }

  /** The message raised for a name that is not supported. */
  function UnsupportedMessage(name: string): string {
    MessageHead(name) + NameList(SupportedAlgorithms)
  }

  /** What algorithm_from_name yields when it scans `table`: the paired algorithm, or the message. */
  function Select(table: seq<Association>, name: string): Result<Algorithm, Error> {
    match Lookup(table, name)
    case Some(a) => Success(a)
    case None => Failure(Exception(MessageHead(name) + NameList(table)))
  }

  /**
    Select succeeds iff some entry carries the name, with the algorithm of the
    first such entry; otherwise it raises the head followed by the name list.
  */
  lemma SelectReportsFirstMatch(table: seq<Association>, name: string)
    ensures Select(table, name).Success? <==> exists i :: 0 <= i < |table| && table[i].name == name
    ensures Select(table, name).Success? ==>
      exists i :: 0 <= i < |table| && table[i].name == name && table[i].algorithm == Select(table, name).value &&
        (forall j :: 0 <= j < i ==> table[j].name != name)
    ensures Select(table, name).Failure? ==>
      Select(table, name).error == Exception(MessageHead(name) + NameList(table))
  {
  }

  /** algorithm_from_name on the supported-algorithm table. */
  function Resolve(name: string): (r: Result<Algorithm, Error>)
    ensures r.Success? ==> NameOf(r.value) == name
  {
    TableAgreesWithNameOf();
    Select(SupportedAlgorithms, name)
  }

  /** algorithm_from_name: looks the name up in the supported-algorithm table. */
  method AlgorithmFromName(name: string) returns (r: Result<Algorithm, Error>)
    ensures r == Resolve(name)
  {
    r := SelectFromTable(SupportedAlgorithms, name);
  }

  /**
    The body of algorithm_from_name, over any table: scans the entries in order,
    then builds the error message.
  */
  method SelectFromTable(table: seq<Association>, name: string) returns (r: Result<Algorithm, Error>)
    ensures r == Select(table, name)
  {
    for i := 0 to |table|
      invariant Lookup(table[i..], name) == Lookup(table, name)
    {
      if name == table[i].name {
        return Success(table[i].algorithm);
      }
      assert table[i..][1..] == table[i + 1..];
    }
    var msg := UnsupportedMessageFor(table, name);
    return Failure(Exception(msg));
  }

  /** The message of algorithm_from_name, built entry by entry. */
  method UnsupportedMessageFor(table: seq<Association>, name: string) returns (msg: string)
    ensures msg == MessageHead(name) + NameList(table)
  {
    msg := "";
    msg := msg + "Unsupported algorithm name: \"";
    msg := msg + name;
    msg := msg + "\"\nSupported:";
    assert table[..0] == [];
    for i := 0 to |table|
      invariant msg == MessageHead(name) + NameList(table[..i])
    {
      ghost var before := msg;
      msg := msg + " ";
      msg := msg + table[i].name;
      NameListAppend(table[..i], table[i]);
      assert table[..i + 1] == table[..i] + [table[i]];
      assert msg == before + (" " + table[i].name);
    }
    assert table[..|table|] == table;
  }

  lemma {:induction false} NameListAppend(table: seq<Association>, a: Association)
    ensures NameList(table + [a]) == NameList(table) + " " + a.name
  {
    if table == [] {
      assert [a][1..] == [];
    } else {
      assert (table + [a])[1..] == table[1..] + [a];
      NameListAppend(table[1..], a);
    }
  }

  /**
    Splits a string at every space; n spaces give n + 1 words, possibly empty.
    This reads the list of names back out of an error message.
   */
  function SplitSpaces(s: string): (r: seq<string>)
    ensures |r| >= 1
  {
    if s == [] then [""]
    else
      var rest := SplitSpaces(s[1..]);
      if s[0] == ' ' then [""] + rest else [[s[0]] + rest[0]] + rest[1..]
  }

  lemma {:induction false} SplitWord(w: string, u: string)
    requires ' ' !in w
    ensures SplitSpaces(w + u) == [w + SplitSpaces(u)[0]] + SplitSpaces(u)[1..]
  {
    if w != [] {
      assert (w + u)[0] == w[0] && (w + u)[1..] == w[1..] + u;
      SplitWord(w[1..], u);
      assert [w[0]] + (w[1..] + SplitSpaces(u)[0]) == w + SplitSpaces(u)[0];
    } else {
      var parts := SplitSpaces(u);
      assert w + u == u && "" + parts[0] == parts[0];
      assert [parts[0]] + parts[1..] == parts;
    }
  }

  predicate SpaceFreeNames(table: seq<Association>) {
    forall i :: 0 <= i < |table| ==> ' ' !in table[i].name
  }

  /** Splitting `w` followed by the name list gives back `w` and then every name, in order. */
  lemma {:induction false} NameListSplitsBack(w: string, table: seq<Association>)
    requires ' ' !in w && SpaceFreeNames(table)
    ensures SplitSpaces(w + NameList(table)) == [w] + Names(table)
    decreases table
  {
    if table == [] {
      SplitWord(w, "");
      assert w + "" == w;
    } else {
      var n, rest := table[0].name, table[1..];
      assert SpaceFreeNames(rest) by {
        forall i | 0 <= i < |rest| ensures ' ' !in rest[i].name {
          assert rest[i] == table[i + 1];
        }
      }
      assert ' ' !in n by { assert table[0].name == n; }
      var u := " " + n + NameList(rest);
      assert w + NameList(table) == w + u;
      SplitWord(w, u);
      assert u[0] == ' ' && u[1..] == n + NameList(rest);
      NameListSplitsBack(n, rest);
      assert SplitSpaces(u) == [""] + ([n] + Names(rest));
      assert w + "" == w;
    }
  }

  lemma SupportedNamesSpaceFree()
    ensures SpaceFreeNames(SupportedAlgorithms)
  {
    FirstNamesSpaceFree();
    LastNamesSpaceFree();
  }

  lemma FirstNamesSpaceFree()
    ensures forall i :: 0 <= i < 5 ==> ' ' !in SupportedAlgorithms[i].name
  {
  }

  lemma LastNamesSpaceFree()
    ensures forall i :: 5 <= i < 10 ==> ' ' !in SupportedAlgorithms[i].name
  {
  }

  /** Length, first and last character of a name: enough to tell the table's names apart. */
  function Signature(s: string): (int, char, char)
    requires s != []
  {
    (|s|, s[0], s[|s| - 1])
  }

  lemma SupportedNamesDistinct()
    ensures DistinctNames(SupportedAlgorithms)
  {
    var table := SupportedAlgorithms;
    assert forall i :: 0 <= i < |table| ==> table[i].name != [];
    forall i, j | 0 <= i < j < |table| ensures table[i].name != table[j].name {
      assert Signature(table[i].name) != Signature(table[j].name);
    }
  }

  /** Each supported name selects exactly the algorithm it is paired with. */
  lemma SupportedNameSelectsPairedAlgorithm(i: nat)
    requires i < |SupportedAlgorithms|
    ensures Resolve(SupportedAlgorithms[i].name) == Success(SupportedAlgorithms[i].algorithm)
  {
    SupportedNamesDistinct();
    LookupFindsEntry(SupportedAlgorithms, i);
  }

  lemma LookupFindsEntry(table: seq<Association>, i: nat)
    requires DistinctNames(table) && i < |table|
    ensures Lookup(table, table[i].name) == Some(table[i].algorithm)
  {
  }

  /** A name outside the table never selects an algorithm: it raises the unsupported-name message. */
  lemma UnknownNameRaises(name: string)
    requires forall i :: 0 <= i < |SupportedAlgorithms| ==> SupportedAlgorithms[i].name != name
    ensures Resolve(name) == Failure(Exception(UnsupportedMessage(name)))
  {
  }

  /**
    The error message is the head naming `name`, followed by the list that,
    split at its spaces, gives back every table name once, in table order.
   */
  lemma UnsupportedMessageListsTable(name: string)
    ensures UnsupportedMessage(name)[..|MessageHead(name)|] == MessageHead(name)
    ensures SplitSpaces(UnsupportedMessage(name)[|MessageHead(name)|..]) == [""] + Names(SupportedAlgorithms)
    ensures Names(SupportedAlgorithms) == ["LBFGS_NOCEDAL", "LBFGS", "VAR1", "VAR2", "TNEWTON",
      "TNEWTON_RESTART", "TNEWTON_PRECOND", "TNEWTON_PRECOND_RESTART", "MMA", "CCSAQ"]
  {
    SupportedNamesSpaceFree();
    MessageListsNames(SupportedAlgorithms, name);
    SupportedNamesInOrder();
  }

  /** For any table of space-free names, the message after its head splits back into the names. */
  lemma {:induction false} MessageListsNames(table: seq<Association>, name: string)
    requires SpaceFreeNames(table)
    ensures (MessageHead(name) + NameList(table))[..|MessageHead(name)|] == MessageHead(name)
    ensures SplitSpaces((MessageHead(name) + NameList(table))[|MessageHead(name)|..]) == [""] + Names(table)
  {
    var head := MessageHead(name);
    assert (head + NameList(table))[|head|..] == NameList(table);
    NameListSplitsBack("", table);
    assert "" + NameList(table) == NameList(table);
  }

  lemma SupportedNamesInOrder()
    ensures Names(SupportedAlgorithms) == ["LBFGS_NOCEDAL", "LBFGS", "VAR1", "VAR2", "TNEWTON",
      "TNEWTON_RESTART", "TNEWTON_PRECOND", "TNEWTON_PRECOND_RESTART", "MMA", "CCSAQ"]
  {
    NamesInHalves(SupportedAlgorithms);
    FirstNamesInOrder();
    LastNamesInOrder();
  }

  lemma NamesInHalves(table: seq<Association>)
    requires |table| == 10
    ensures Names(table) == Names(table[..5]) + Names(table[5..])
  {
    NamesAppend(table[..5], table[5..]);
    assert table[..5] + table[5..] == table;
  }

  lemma FirstNamesInOrder()
    ensures Names(SupportedAlgorithms[..5]) == ["LBFGS_NOCEDAL", "LBFGS", "VAR1", "VAR2", "TNEWTON"]
  {
    NamesOfFive(SupportedAlgorithms[..5]);
  }

  lemma LastNamesInOrder()
    ensures Names(SupportedAlgorithms[5..]) == ["TNEWTON_RESTART", "TNEWTON_PRECOND", "TNEWTON_PRECOND_RESTART", "MMA", "CCSAQ"]
  {
    NamesOfFive(SupportedAlgorithms[5..]);
  }

  lemma NamesOfFive(table: seq<Association>)
    requires |table| == 5
    ensures Names(table) == [table[0].name, table[1].name, table[2].name, table[3].name, table[4].name]
  {
  }

  lemma {:induction false} NamesAppend(left: seq<Association>, right: seq<Association>)
    ensures Names(left + right) == Names(left) + Names(right)
  {
    if left == [] {
      assert left + right == right;
    } else {
      assert (left + right)[1..] == left[1..] + right;
      NamesAppend(left[1..], right);
    }
  }

  /** The nlopt name of each algorithm (NLOPT_LD_<name>), stated independently of the table. */
  function NameOf(a: Algorithm): string {
    match a
    case LdLbfgsNocedal => "LBFGS_NOCEDAL"
    case LdLbfgs => "LBFGS"
    case LdVar1 => "VAR1"
    case LdVar2 => "VAR2"
    case LdTnewton => "TNEWTON"
    case LdTnewtonRestart => "TNEWTON_RESTART"
    case LdTnewtonPrecond => "TNEWTON_PRECOND"
    case LdTnewtonPrecondRestart => "TNEWTON_PRECOND_RESTART"
    case LdMma => "MMA"
    case LdCcsaq => "CCSAQ"
  }

  /** The row of the table that holds `a`. */
  function Row(a: Algorithm): (i: nat)
    ensures i < |SupportedAlgorithms| && SupportedAlgorithms[i].algorithm == a
  {
    match a
    case LdLbfgsNocedal => 0
    case LdLbfgs => 1
    case LdVar1 => 2
    case LdVar2 => 3
    case LdTnewton => 4
    case LdTnewtonRestart => 5
    case LdTnewtonPrecond => 6
    case LdTnewtonPrecondRestart => 7
    case LdMma => 8
    case LdCcsaq => 9
  }

  lemma TableAgreesWithNameOf()
    ensures forall i :: 0 <= i < |SupportedAlgorithms| ==>
      NameOf(SupportedAlgorithms[i].algorithm) == SupportedAlgorithms[i].name
  {
  }

  /** Selecting by an algorithm's own name gives back that algorithm. */
  lemma NameOfSelects(a: Algorithm)
    ensures Resolve(NameOf(a)) == Success(a)
  {
    TableAgreesWithNameOf();
    SupportedNamesDistinct();
    LookupFindsEntry(SupportedAlgorithms, Row(a));
  }

  /** A name that selects an algorithm is that algorithm's own name: no other spelling is accepted. */
  lemma SelectedNameIsNameOf(a: Algorithm, name: string)
    ensures Resolve(name) == Success(a) ==> name == NameOf(a)
  {
    TableAgreesWithNameOf();
  }
}
