/**
 * The FastAPI layer over the bot manager (new/multi_bot/api.py): the bot
 * listing, the query endpoint's status codes, ingestion dispatch and upload
 * validation. Each ingestion class is an oracle from a domain to the file
 * system view after it ran (None when it raised); the background-task queue
 * is the list of domains handed to it.
 */
module Api {
  import opened Common
  import opened Documents
  import opened Catalog
  import opened BotManager

  /** `BOT_DESCRIPTIONS`, in its insertion order. */
  const BotDescriptions: seq<(string, string)> := [
    ("IPC Bot", "Specialized in Indian Penal Code (IPC) sections, criminal offenses, and punishments."),
    ("RTI Bot", "Expert on Right to Information (RTI) Act, filing procedures, and information access rights."),
    ("Labor Law Bot", "Focused on Indian labor regulations, worker's rights, and workplace laws."),
    ("Constitution Bot", "Knowledgeable about Indian Constitution, fundamental rights, and governance structure.")
  ]

  /** `name in BOT_DESCRIPTIONS` */
  predicate Described(name: string)
  {
    exists i :: 0 <= i < |BotDescriptions| && BotDescriptions[i].0 == name
  }

  lemma DescribedAreTheFour(name: string)
    ensures Described(name) <==> name in AllBotNames
  {
    if name in AllBotNames {
      var i :| 0 <= i < |AllBotNames| && AllBotNames[i] == name;
      assert BotDescriptions[i].0 == name;
    }
  }

  /** `BotInfoResponse` */
  datatype BotInfo = BotInfo(name: string, description: string, available: bool)

  /**
   * `GET /bots`: one entry per described bot, in table order, marked
   * available exactly when the manager lists it.
   */
  method ListBots(availableBots: seq<string>) returns (infos: seq<BotInfo>)
    ensures |infos| == |BotDescriptions|
    ensures forall i :: 0 <= i < |infos| ==>
      infos[i].name == AllBotNames[i] && infos[i].description == BotDescriptions[i].1 &&
      (infos[i].available <==> AllBotNames[i] in availableBots)
  {
    infos := [];
    for i := 0 to |BotDescriptions|
      invariant |infos| == i
      invariant forall j :: 0 <= j < i ==>
        infos[j].name == AllBotNames[j] && infos[j].description == BotDescriptions[j].1 &&
        (infos[j].available <==> AllBotNames[j] in availableBots)
    {
      var (name, description) := BotDescriptions[i];
      infos := infos + [BotInfo(name, description, name in availableBots)];
    }
  }

  /** `DocumentResponse(content, metadata)` */
  datatype DocumentResponse = DocumentResponse(content: string, metadata: Metadata)

  /** The responses of the query endpoint: status code and body. */
  datatype QueryResponse =
    | NotFound404(bot: string)
    | Unavailable400(bot: string)
    | Failed500(error: BotError)
    | Answered(answer: string, sources: seq<DocumentResponse>)

  /** The `sources.append` loop: one response per source document, in order. */
  method MirrorSources(docs: seq<Document>) returns (sources: seq<DocumentResponse>)
    ensures |sources| == |docs|
    ensures forall i :: 0 <= i < |docs| ==>
      sources[i].content == docs[i].pageContent && sources[i].metadata == docs[i].metadata
  {
    sources := [];
    for i := 0 to |docs|
      invariant |sources| == i
      invariant forall j :: 0 <= j < i ==>
        sources[j].content == docs[j].pageContent && sources[j].metadata == docs[j].metadata
    {
      sources := sources + [DocumentResponse(docs[i].pageContent, docs[i].metadata)];
    }
  }

  /**
   * `POST /bots/{bot_name}/query`: 404 for a bot outside the descriptions,
   * checked first; 400 for a described bot the manager does not list; 500
   * when the manager's query raises; otherwise the answer and every source
   * document.
   */
  method QueryEndpoint(m: LegalBotManager, bot: string, query: string, fs: FsView,
                       invoke: (QaChain, string) -> Option<QaResult>) returns (resp: QueryResponse)
    ensures !Described(bot) ==> resp == NotFound404(bot)
    ensures Described(bot) && bot !in m.availableBots ==> resp == Unavailable400(bot)
    ensures Described(bot) && bot in m.availableBots ==>
      (GetBot(bot, fs).Err? ==> resp == Failed500(GetBot(bot, fs).error)) &&
      (GetBot(bot, fs).Ok? && invoke(GetBot(bot, fs).value, query).None? ==> resp == Failed500(ChainFailed(bot))) &&
      (GetBot(bot, fs).Ok? && invoke(GetBot(bot, fs).value, query).Some? ==>
         var result := invoke(GetBot(bot, fs).value, query).value;
         resp.Answered? && resp.answer == result.result && |resp.sources| == |result.sourceDocuments| &&
         forall i :: 0 <= i < |result.sourceDocuments| ==>
           resp.sources[i] == DocumentResponse(result.sourceDocuments[i].pageContent, result.sourceDocuments[i].metadata))
  {
    DescribedAreTheFour(bot);
    if bot !in AllBotNames {
      return NotFound404(bot);
    }
    if bot !in m.availableBots {
      return Unavailable400(bot);
    }
    var r := m.QueryBot(bot, query, fs, invoke);
    if r.Err? {
      return Failed500(r.error);
    }
    var sources := MirrorSources(r.value.sourceDocuments);
    resp := Answered(r.value.result, sources);
  }

  /** The four domain names in ingestion order. */
  const Domains: seq<string> := ["ipc", "rti", "labor_law", "constitution"]

  /**
   * `ingest_documents`, the background task: an unknown domain is logged and
   * nothing else happens; a successful ingestion refreshes the manager's
   * list from the file system it leaves; a failed one changes nothing.
   */
  method IngestDocuments(m: LegalBotManager, domain: string, ingest: string -> Option<FsView>)
    modifies m
    ensures domain !in Domains || ingest(domain).None? ==> m.availableBots == old(m.availableBots)
    ensures domain in Domains && ingest(domain).Some? ==> m.availableBots == AvailableFrom(ingest(domain).value)
  {
    if domain !in Domains {
      return;
    }
    var after := ingest(domain);
    if after.None? {
      return;
    }
    m.CheckAvailableBots(after.value);
  }

  /** The answers of `POST /ingest/{domain}`. */
  datatype IngestResponse = InvalidDomain400 | Processing(message: string)

  /**
   * `POST /ingest/{domain}`: anything but the four domains and "all" is
   * refused with nothing scheduled; "all" schedules the four domains in
   * order; a single domain schedules itself.
   */
  method StartIngestion(domain: string) returns (resp: IngestResponse, tasks: seq<string>)
    ensures domain !in Domains + ["all"] ==> resp == InvalidDomain400 && tasks == []
    ensures domain == "all" ==> resp.Processing? && tasks == Domains
    ensures domain in Domains ==> resp.Processing? && tasks == [domain]
  {
    if domain !in ["ipc", "rti", "labor_law", "constitution", "all"] {
      return InvalidDomain400, [];
    }
    tasks := [];
    if domain == "all" {
      for i := 0 to |Domains|
        invariant tasks == Domains[..i]
      {
        tasks := tasks + [Domains[i]];
      }
      resp := Processing("Document ingestion started for all domains");
    } else {
      tasks := [domain];
      resp := Processing("Document ingestion started for " + domain);
    }
  }

  /** Every scheduled task is one `ingest_documents` accepts, so none of them is dropped as unknown. */
  lemma ScheduledDomainsAreKnown(domain: string, tasks: seq<string>)
    requires domain == "all" ==> tasks == Domains
    requires domain in Domains ==> tasks == [domain]
    requires domain !in Domains + ["all"] ==> tasks == []
    ensures forall i :: 0 <= i < |tasks| ==> tasks[i] in Domains
    ensures |tasks| <= 4
  {
  }

  /** `os.path.join(a, b)`: an absolute `b` replaces `a`; otherwise a separator is added unless `a` is empty or ends in one. */
  function PathJoin(a: string, b: string): string
  {
    if StartsWith(b, "/") then b
    else if a == [] || EndsWith(a, "/") then a + b
    else a + "/" + b
  }

  /** The answers of `POST /upload`. */
  datatype UploadResponse = UploadInvalidDomain400 | UnsupportedFile400 | Saved(path: string)

  /**
   * `POST /upload`: the domain is checked first (the four, not "all"), then
   * the extension (.pdf or .txt); the file goes to
   * `{base}/data/{domain}/{filename}`.
   */
  function UploadDocument(baseDir: string, domain: string, filename: string): UploadResponse
  {
    if domain !in Domains then UploadInvalidDomain400
    else if EndsWith(filename, ".pdf") || EndsWith(filename, ".txt") then
      Saved(PathJoin(PathJoin(PathJoin(baseDir, "data"), domain), filename))
    else UnsupportedFile400
  }

  /** Joining a directory with a plain segment puts exactly one separator between them. */
  lemma JoinSegment(dir: string, seg: string)
    requires dir != [] && !EndsWith(dir, "/")
    requires seg != [] && seg[0] != '/' && seg[|seg| - 1] != '/'
    ensures PathJoin(dir, seg) == dir + "/" + seg
    ensures !EndsWith(PathJoin(dir, seg), "/")
  {
    var r := dir + "/" + seg;
    assert r[|r| - 1] == seg[|seg| - 1];
  }

  /** The four domain names are plain path segments. */
  lemma DomainIsSegment(domain: string)
    requires domain in Domains
    ensures domain != [] && domain[0] != '/' && domain[|domain| - 1] != '/'
  {
  }

  /** Validation order: an invalid domain wins over an invalid name; a file is saved exactly when both pass. */
  lemma UploadValidation(baseDir: string, domain: string, filename: string)
    ensures domain !in Domains <==> UploadDocument(baseDir, domain, filename) == UploadInvalidDomain400
    ensures UploadDocument(baseDir, domain, filename).Saved? <==>
      domain in Domains && (EndsWith(filename, ".pdf") || EndsWith(filename, ".txt"))
  {
  }

  /** `os.path.join(base, "data", domain)` for a base without a trailing separator. */
  lemma DomainDirectory(baseDir: string, domain: string)
    requires baseDir != [] && !EndsWith(baseDir, "/") && domain in Domains
    ensures PathJoin(PathJoin(baseDir, "data"), domain) == baseDir + "/data/" + domain
    ensures !EndsWith(PathJoin(PathJoin(baseDir, "data"), domain), "/")
  {
    DomainIsSegment(domain);
    JoinSegment(baseDir, "data");
    assert baseDir + "/" + "data" == baseDir + "/data";
    JoinSegment(baseDir + "/data", domain);
    assert baseDir + "/data" + "/" + domain == baseDir + "/data/" + domain;
  }

  /**
   * Destination: a relative file name is saved under the domain's data
   * directory; an absolute one is used as it stands, outside that directory.
   */
  lemma UploadDestination(baseDir: string, domain: string, filename: string)
    requires baseDir != [] && !EndsWith(baseDir, "/")
    requires UploadDocument(baseDir, domain, filename).Saved?
    ensures !StartsWith(filename, "/") ==>
      UploadDocument(baseDir, domain, filename).path == baseDir + "/data/" + domain + "/" + filename
    ensures StartsWith(filename, "/") ==> UploadDocument(baseDir, domain, filename).path == filename
  {
    DomainDirectory(baseDir, domain);
  }
}
