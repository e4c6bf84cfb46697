/**
 * `LegalBotManager` (new/multi_bot/utils.py): the bot-to-domain table, the
 * cached list of available bots recomputed from the vector-store directories,
 * and the guards of `get_bot` and `query_bot`. The file system is a value
 * listing which `{domain}_index` entries under the vector-store directory
 * exist and which of them are directories; the retrieval chain is an oracle.
 */
module BotManager {
  import opened Common
  import opened Documents
  import opened Catalog

  /** Which `{domain}_index` names under `vectorstores/` exist, and which are directories. */
  datatype FsView = FsView(existing: set<string>, directories: set<string>)

  /** `domain_mapping`, in its insertion order. */
  const DomainMapping: seq<(string, string)> :=
    [("IPC Bot", "ipc"), ("RTI Bot", "rti"), ("Labor Law Bot", "labor_law"), ("Constitution Bot", "constitution")]

  /** `domain_mapping.get(bot)` */
  function DomainOf(bot: string): (d: Option<string>)
    ensures d.Some? <==> bot in AllBotNames
  {
    if bot == "IPC Bot" then Some("ipc")
    else if bot == "RTI Bot" then Some("rti")
    else if bot == "Labor Law Bot" then Some("labor_law")
    else if bot == "Constitution Bot" then Some("constitution")
    else None
  }

  /** The mapping table and `DomainOf` agree, and the table lists the four bots in `LEGAL_BOTS` order. */
  lemma DomainMappingTable()
    ensures |DomainMapping| == |AllBotNames|
    ensures forall i :: 0 <= i < |DomainMapping| ==>
      DomainMapping[i].0 == AllBotNames[i] && DomainOf(DomainMapping[i].0) == Some(DomainMapping[i].1)
  {
  }

  /** `f"{domain}_index"` */
  function IndexName(domain: string): string
  {
    domain + "_index"
  }

  /** `os.path.exists(path) and os.path.isdir(path)` for a domain's index. */
  predicate HasIndexDirectory(fs: FsView, domain: string)
  {
    IndexName(domain) in fs.existing && IndexName(domain) in fs.directories
  }

  /** The bots among the first `n` mapping entries whose index directory exists, in mapping order. */
  function AvailableUpTo(fs: FsView, n: nat): seq<string>
    requires n <= |DomainMapping|
  {
    if n == 0 then []
    else if HasIndexDirectory(fs, DomainMapping[n - 1].1) then AvailableUpTo(fs, n - 1) + [DomainMapping[n - 1].0]
    else AvailableUpTo(fs, n - 1)
  }

  /** The list `_check_available_bots` computes. */
  function AvailableFrom(fs: FsView): seq<string>
  {
    AvailableUpTo(fs, |DomainMapping|)
  }

  /** The position of each bot in the mapping. */
  function Rank(bot: string): nat
  {
    if bot == "IPC Bot" then 0 else if bot == "RTI Bot" then 1 else if bot == "Labor Law Bot" then 2 else 3
  }

  lemma {:induction false} AvailableUpToMeaning(fs: FsView, n: nat)
    requires n <= |DomainMapping|
    ensures forall b :: b in AvailableUpTo(fs, n) <==>
      exists i :: 0 <= i < n && DomainMapping[i].0 == b && HasIndexDirectory(fs, DomainMapping[i].1)
    ensures forall k :: 0 <= k < |AvailableUpTo(fs, n)| ==> Rank(AvailableUpTo(fs, n)[k]) < n
    ensures forall k, l :: 0 <= k < l < |AvailableUpTo(fs, n)| ==>
      Rank(AvailableUpTo(fs, n)[k]) < Rank(AvailableUpTo(fs, n)[l])
  {
    if n > 0 {
      AvailableUpToMeaning(fs, n - 1);
      var prev := AvailableUpTo(fs, n - 1);
      var e := DomainMapping[n - 1];
      assert Rank(e.0) == n - 1;
      if HasIndexDirectory(fs, e.1) {
        var r := prev + [e.0];
        assert AvailableUpTo(fs, n) == r;
        forall k | 0 <= k < |r| ensures Rank(r[k]) < n {
          if k < |prev| { assert r[k] == prev[k]; }
        }
        forall k, l | 0 <= k < l < |r| ensures Rank(r[k]) < Rank(r[l]) {
          assert r[k] == prev[k];
          if l < |prev| { assert r[l] == prev[l]; }
        }
      } else {
        assert AvailableUpTo(fs, n) == prev;
      }
      forall b ensures b in AvailableUpTo(fs, n) <==>
        exists i :: 0 <= i < n && DomainMapping[i].0 == b && HasIndexDirectory(fs, DomainMapping[i].1)
      {
        if exists i :: 0 <= i < n && DomainMapping[i].0 == b && HasIndexDirectory(fs, DomainMapping[i].1) {
          var i :| 0 <= i < n && DomainMapping[i].0 == b && HasIndexDirectory(fs, DomainMapping[i].1);
          if i < n - 1 {
            assert b in prev;
          }
        }
      }
    }
  }

  /**
   * The availability list holds exactly the bots whose `{domain}_index`
   * exists and is a directory, each once, in mapping order.
   */
  lemma AvailableFromMeaning(fs: FsView)
    ensures forall b :: b in AvailableFrom(fs) <==> DomainOf(b).Some? && HasIndexDirectory(fs, DomainOf(b).value)
    ensures forall k, l :: 0 <= k < l < |AvailableFrom(fs)| ==> Rank(AvailableFrom(fs)[k]) < Rank(AvailableFrom(fs)[l])
  {
    AvailableUpToMeaning(fs, |DomainMapping|);
    DomainMappingTable();
    forall b | DomainOf(b).Some? && HasIndexDirectory(fs, DomainOf(b).value)
      ensures b in AvailableFrom(fs)
    {
      var i := Rank(b);
      assert DomainMapping[i].0 == b;
    }
  }

  /** The errors `get_bot` and `query_bot` raise. */
  datatype BotError = UnknownBot(name: string) | MissingIndex(name: string) | NotAvailable(name: string) | ChainFailed(name: string)

  datatype Result<T> = Ok(value: T) | Err(error: BotError)

  /** A retrieval chain over one domain's index, retrieving `k` documents per question. */
  datatype QaChain = QaChain(bot: string, indexName: string, k: nat)

  /** Documents retrieved per question. */
  const RetrieverK: nat := 4

  /** `get_bot`: unknown names, then missing index paths (existence only, not that they are directories), are refused. */
  function GetBot(bot: string, fs: FsView): (r: Result<QaChain>)
  {
    match DomainOf(bot)
    case None => Err(UnknownBot(bot))
    case Some(domain) =>
      if IndexName(domain) !in fs.existing then Err(MissingIndex(bot))
      else Ok(QaChain(bot, IndexName(domain), RetrieverK))
  }

  /** `get_bot` builds a four-document chain over the bot's own index exactly when the bot is known and its index exists. */
  lemma GetBotMeaning(bot: string, fs: FsView)
    ensures GetBot(bot, fs).Ok? <==> bot in AllBotNames && IndexName(DomainOf(bot).value) in fs.existing
    ensures GetBot(bot, fs) == Err(UnknownBot(bot)) <==> bot !in AllBotNames
    ensures GetBot(bot, fs).Ok? ==>
      GetBot(bot, fs).value == QaChain(bot, IndexName(DomainOf(bot).value), 4)
  {
  }

  /** A bot found available on some view of the file system can still be loaded from that same view. */
  lemma AvailableBotLoads(bot: string, fs: FsView)
    requires bot in AvailableFrom(fs)
    ensures GetBot(bot, fs).Ok?
  {
    AvailableFromMeaning(fs);
  }

  class LegalBotManager {
    /** `self.available_bots`, the cache `get_available_bots` returns. */
    var availableBots: seq<string>

    /** `__init__` computes the cache once. */
    constructor(fs: FsView)
      ensures availableBots == AvailableFrom(fs)
    {
      availableBots := [];
      new;
      CheckAvailableBots(fs);
    }

    /** `_check_available_bots`: reset the list, then append each bot whose index directory exists. */
    method CheckAvailableBots(fs: FsView)
      modifies this
      ensures availableBots == AvailableFrom(fs)
    {
      availableBots := [];
      for i := 0 to |DomainMapping|
        invariant availableBots == AvailableUpTo(fs, i)
      {
        var (bot, domain) := DomainMapping[i];
        if IndexName(domain) in fs.existing && IndexName(domain) in fs.directories {
          availableBots := availableBots + [bot];
        }
      }
    }

    /** `get_available_bots` returns the cache; nothing but `CheckAvailableBots` changes it. */
    function GetAvailableBots(): seq<string>
      reads this
    {
      availableBots
    }

    /**
     * `query_bot`: a bot missing from the cached list is refused before the
     * chain is built; `get_bot`'s errors follow; a chain that raises is
     * `ChainFailed`.
     */
    method QueryBot(bot: string, query: string, fs: FsView, invoke: (QaChain, string) -> Option<QaResult>)
      returns (r: Result<QaResult>)
      ensures bot !in availableBots ==> r == Err(NotAvailable(bot))
      ensures bot in availableBots && GetBot(bot, fs).Err? ==> r == Err(GetBot(bot, fs).error)
      ensures bot in availableBots && GetBot(bot, fs).Ok? ==>
        (invoke(GetBot(bot, fs).value, query).None? ==> r == Err(ChainFailed(bot))) &&
        (invoke(GetBot(bot, fs).value, query).Some? ==> r == Ok(invoke(GetBot(bot, fs).value, query).value))
      ensures r.Ok? ==> bot in availableBots && bot in AllBotNames
    {
      if bot !in availableBots {
        return Err(NotAvailable(bot));
      }
      var chain := GetBot(bot, fs);
      if chain.Err? {
        return Err(chain.error);
      }
      var result := invoke(chain.value, query);
      if result.None? {
        return Err(ChainFailed(bot));
      }
      r := Ok(result.value);
    }
  }
}
