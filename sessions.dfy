/** `SessionsManager.py`: the process-wide session cache and the turn
    record `SessionData`. */
module Sessions {
  import opened Wrappers
  import opened Llm
  import opened Collaborators

  /** The one-message history a new session starts from. */
  function Seed(prompts: Prompts): seq<Message> {
    [Message("user", prompts["BasePrompt"])]
  }

  /** `SessionManager`: its class-level `_sessions` dictionary, `_db` and
      prompt templates. One object stands for the class, shared by all. */
  class SessionManager {
    var sessions: map<string, seq<Message>>
    const db: Db
    const prompts: Prompts

    constructor (db: Db, prompts: Prompts)
      ensures sessions == map[] && this.db == db && this.prompts == prompts
    {
      sessions := map[];
      this.db := db;
      this.prompts := prompts;
    }

    /** `add_session`: an empty id mints `newId` (the `uuid4` string) and
        seeds it with the base prompt; a non-empty id is loaded from the
        store unless it is cached already, and is returned unchanged. */
    method AddSession(sessionId: string, newId: string) returns (r: Outcome<string>)
      requires newId != ""
      modifies this
      ensures sessionId == "" ==>
                r == Returns(newId) && sessions == old(sessions)[newId := Seed(prompts)]
      ensures sessionId != "" && sessionId in old(sessions) ==>
                r == Returns(sessionId) && sessions == old(sessions)
      ensures sessionId != "" && sessionId !in old(sessions) ==>
                match db.GetConversationHistory(sessionId)
                case Returns(h) => r == Returns(sessionId) && sessions == old(sessions)[sessionId := h]
                case Raises => r == Raises && sessions == old(sessions)
      ensures r.Returns? ==> r.value in sessions && r.value != ""
    {
      if sessionId != "" {
        var loaded := LoadSessionHistory(sessionId);
        r := if loaded.Raises? then Raises else Returns(sessionId);
      } else {
        sessions := sessions[newId := Seed(prompts)];
        r := Returns(newId);
      }
    }

    /** `load_session_history`: fills the cache from the store on a miss. */
    method LoadSessionHistory(sessionId: string) returns (r: Outcome<()>)
      modifies this
      ensures sessionId in old(sessions) ==> r == Returns(()) && sessions == old(sessions)
      ensures sessionId !in old(sessions) ==>
                match db.GetConversationHistory(sessionId)
                case Returns(h) => r == Returns(()) && sessions == old(sessions)[sessionId := h]
                case Raises => r == Raises && sessions == old(sessions)
    {
      if sessionId !in sessions {
        var h := GetSessionHistory(sessionId);
        if h.Raises? {
          return Raises;
        }
        sessions := sessions[sessionId := h.value];
      }
      r := Returns(());
    }

    /** `get_session_history`: the cached history, or the store's on a miss.
        It never writes the cache. */
    method GetSessionHistory(sessionId: string) returns (r: Outcome<seq<Message>>)
      ensures r == Lookup(sessions, db.histories, sessionId)
    {
      if sessionId in sessions {
        r := Returns(sessions[sessionId]);
      } else {
        r := db.GetConversationHistory(sessionId);
      }
    }

    /** `set_session_history`: replaces the cached history of one id. */
    method SetSessionHistory(sessionId: string, history: seq<Message>)
      modifies this
      ensures sessions == old(sessions)[sessionId := history]
    {
      sessions := sessions[sessionId := history];
    }

    /** `save_session`: forwards the cached history to the store; an id
        that is not cached raises before the store is called. */
    method SaveSession(username: string, sessionId: string, imageDesc: string, summary: string)
      returns (r: Outcome<()>)
      modifies db
      ensures sessionId in sessions ==>
                r == Returns(()) &&
                db.saves == old(db.saves) + [SaveCall(username, sessionId, imageDesc, sessions[sessionId], summary)] &&
                db.histories == old(db.histories)[sessionId := sessions[sessionId]]
      ensures sessionId !in sessions ==> r == Raises && unchanged(db)
    {
      if sessionId !in sessions {
        return Raises;
      }
      db.SaveSession(SaveCall(username, sessionId, imageDesc, sessions[sessionId], summary));
      r := Returns(());
    }
  }

  /** What `get_session_history` answers for a cache and a store. */
  function Lookup(cache: map<string, seq<Message>>, stored: map<string, seq<Message>>, sessionId: string)
    : (r: Outcome<seq<Message>>)
    ensures sessionId in cache ==> r == Returns(cache[sessionId])
    ensures sessionId !in cache && sessionId in stored ==> r == Returns(stored[sessionId])
    ensures sessionId !in cache && sessionId !in stored ==> r == Raises
  {
    if sessionId in cache then Returns(cache[sessionId])
    else if sessionId in stored then Returns(stored[sessionId])
    else Raises
  }

  /** After `set_session_history(id, h)`, looking up `id` yields `h` and
      every other id yields what it yielded before. */
  lemma SetThenGet(cache: map<string, seq<Message>>, stored: map<string, seq<Message>>,
                   sessionId: string, h: seq<Message>, other: string)
    ensures Lookup(cache[sessionId := h], stored, sessionId) == Returns(h)
    ensures other != sessionId ==>
              Lookup(cache[sessionId := h], stored, other) == Lookup(cache, stored, other)
  {
  }

  /** The fields of a `SessionData`, as a value. `sumary` and `history` are
      attributes that `set` creates; `None` means the attribute does not
      exist yet. */
  datatype Record = Record(
    message: string, image: string, obj: string, imageDescription: string,
    summary: string, currentPrompt: string,
    sumary: Option<string>, history: Option<seq<Message>>)

  /** The keyword arguments of one `set` call; leaving one out passes "". */
  datatype Update = Update(
    message: string := "", image: string := "", obj: string := "",
    imageDescription: string := "", summary: string := "", currentPrompt: string := "",
    history: seq<Message> := [])

  /** A fresh record: every text field empty, no extra attribute. */
  const Empty: Record := Record("", "", "", "", "", "", None, None)

  /** One field under `set`: a truthy (non-empty) value overwrites it. */
  function Keep(current: string, given: string): (r: string)
    ensures given != "" ==> r == given
    ensures r == given || r == current
    ensures r == "" <==> given == "" && current == ""
  {
    if given != "" then given else current
  }

  /** The record after `set(...)`. The `summary` argument is written to the
      attribute `sumary`, as the source spells it, so `summary` never changes. */
  function Merge(r: Record, u: Update): (m: Record)
    ensures m.summary == r.summary
    ensures r.message != "" ==> m.message != ""
    ensures r.image != "" ==> m.image != ""
    ensures r.obj != "" ==> m.obj != ""
    ensures r.imageDescription != "" ==> m.imageDescription != ""
    ensures r.currentPrompt != "" ==> m.currentPrompt != ""
  {
    Record(
      Keep(r.message, u.message), Keep(r.image, u.image), Keep(r.obj, u.obj),
      Keep(r.imageDescription, u.imageDescription), r.summary,
      Keep(r.currentPrompt, u.currentPrompt),
      if u.summary != "" then Some(u.summary) else r.sumary,
      if |u.history| > 0 then Some(u.history) else r.history)
  }

  /** `set()` with no arguments changes nothing. */
  lemma MergeNothing(r: Record)
    ensures Merge(r, Update()) == r
  {
  }

  /** Applying the same `set` twice is applying it once. */
  lemma MergeIdempotent(r: Record, u: Update)
    ensures Merge(Merge(r, u), u) == Merge(r, u)
  {
  }

  /** An empty value never clears a field: whatever one `set` stored, a
      later `set` that leaves a field empty keeps it. */
  lemma MergeNoClobber(r: Record, u: Update, v: Update)
    ensures var m, n := Merge(r, u), Merge(Merge(r, u), v);
            (v.message == "" ==> n.message == m.message) &&
            (v.image == "" ==> n.image == m.image) &&
            (v.obj == "" ==> n.obj == m.obj) &&
            (v.imageDescription == "" ==> n.imageDescription == m.imageDescription) &&
            (v.currentPrompt == "" ==> n.currentPrompt == m.currentPrompt) &&
            (v.summary == "" ==> n.sumary == m.sumary) &&
            (v.history == [] ==> n.history == m.history)
  {
  }

  /** `set(summary=s)` with a non-empty `s` leaves `summary` as it was and
      stores `s` under the misspelt attribute. */
  lemma SummaryGoesToSumary(r: Record, s: string)
    requires s != ""
    ensures Merge(r, Update(summary := s)).summary == r.summary
    ensures Merge(r, Update(summary := s)).sumary == Some(s)
  {
  }

  /** `SessionData`: the record of one `Exec` call's outputs. */
  class SessionData {
    const sessionId: string
    const username: string
    var message: string
    var image: string          // IMAGE
    var obj: string         // OBJECT
    var imageDescription: string
    var summary: string
    var currentPrompt: string
    var sumary: Option<string>
    var history: Option<seq<Message>>

    function View(): Record
      reads this
    {
      Record(message, image, obj, imageDescription, summary, currentPrompt, sumary, history)
    }

    /** `__init__`: every field starts empty. */
    constructor (sessionId: string, username: string)
      ensures this.sessionId == sessionId && this.username == username
      ensures View() == Empty
    {
      this.sessionId := sessionId;
      this.username := username;
      message, image, obj, imageDescription, summary, currentPrompt := "", "", "", "", "", "";
      sumary, history := None, None;
    }

    /** `set`: each argument that is non-empty overwrites its field. */
    method Set(u: Update)
      modifies this
      ensures View() == Merge(old(View()), u)
    {
      message := Keep(message, u.message);
      image := Keep(image, u.image);
      obj := Keep(obj, u.obj);
      imageDescription := Keep(imageDescription, u.imageDescription);
      if u.summary != "" { sumary := Some(u.summary); }
      currentPrompt := Keep(currentPrompt, u.currentPrompt);
      if |u.history| > 0 { history := Some(u.history); }
    }
  }
}
