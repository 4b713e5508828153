/** The command message that purges a source file: it fans out into one
    "spawn delete files job" message per stand-alone job that read the file
    and one "purge recipe" message per live recipe that read it, and deletes
    the file's own rows once there are neither. Jobs inside a recipe and
    superseded recipes may still read the file at that point.

    The database tables the message touches are a value of type `Tables`;
    each table is the sequence of its rows in the order a query returns
    them, and a query filter is `Filter` over that sequence. */
module PurgeSourceFileMessage {
  import opened Wrappers

  /** The type name the message is registered under. */
  const MessageType: string := "purge_source_file"

  /** The messages `execute` sends on. */
  datatype Message =
    | SpawnDeleteFilesJob(jobId: int, triggerId: int, sourceFileId: int, purge: bool)
    | PurgeRecipe(recipeId: int, triggerId: int, sourceFileId: int)

  /** The purge bookkeeping row of a source file. */
  datatype PurgeResults = PurgeResults(forceStopPurge: bool, purgeCompleted: Option<Timestamp>)

  /** A job input row, with the job's recipe (None: the job is in no recipe). */
  datatype JobInputFile = JobInputFile(inputFileId: int, jobId: int, jobRecipeId: Option<int>)

  /** A recipe input row, with the recipe's superseded flag. */
  datatype RecipeInputFile = RecipeInputFile(inputFileId: int, recipeId: int, recipeIsSuperseded: bool)

  /** An ingest row and the source file it produced (if any). */
  datatype Ingest = Ingest(id: int, sourceFileId: Option<int>)

  datatype Tables = Tables(
    purgeResults: map<int, PurgeResults>,   // by source file id
    jobInputs: seq<JobInputFile>,
    recipeInputs: seq<RecipeInputFile>,
    ingests: seq<Ingest>,
    scaleFiles: set<int>)                   // ids of the file rows

  /** The failures `execute` does not catch. */
  datatype ExecuteError = PurgeResultsDoesNotExist(sourceFileId: int)

  /** The serialised message: a JSON object with two integer members. */
  type Json = map<string, int>

  datatype JsonError = KeyError(key: string)

  function EncodeIds(sourceFileId: int, triggerId: int): (j: Json)
    ensures j.Keys == {"source_file_id", "trigger_id"}
  {
    map["source_file_id" := sourceFileId, "trigger_id" := triggerId]
  }

  /** Reads both ids back; a missing member is a key error. */
  function DecodeIds(j: Json): (r: Result<(int, int), JsonError>)
    ensures r.Ok? <==> "source_file_id" in j && "trigger_id" in j
    ensures r.Ok? ==> r.value == (j["source_file_id"], j["trigger_id"])
  {
    if "source_file_id" !in j then Err(KeyError("source_file_id"))
    else if "trigger_id" !in j then Err(KeyError("trigger_id"))
    else Ok((j["source_file_id"], j["trigger_id"]))
  }

  /** Decoding what was encoded gives back the same ids. */
  lemma IdsRoundTrip(sourceFileId: int, triggerId: int)
    ensures DecodeIds(EncodeIds(sourceFileId, triggerId)) == Ok((sourceFileId, triggerId))
  {
  }

  /** The job inputs of the file whose job is in no recipe. */
  function JobInputsToPurge(t: Tables, sourceFileId: int): (rows: seq<JobInputFile>)
    ensures forall i :: 0 <= i < |rows| ==>
              rows[i] in t.jobInputs && rows[i].inputFileId == sourceFileId && rows[i].jobRecipeId.None?
    ensures forall i :: 0 <= i < |t.jobInputs| ==>
              (t.jobInputs[i].inputFileId == sourceFileId && t.jobInputs[i].jobRecipeId.None? ==> t.jobInputs[i] in rows)
  {
    Filter(t.jobInputs, (ji: JobInputFile) => ji.inputFileId == sourceFileId && ji.jobRecipeId.None?)
  }

  /** Each matching row of the table appears exactly as often as it occurs
      there, and no other row appears. */
  lemma JobInputsOnePerRow(t: Tables, sourceFileId: int)
    ensures forall ji :: multiset(JobInputsToPurge(t, sourceFileId))[ji] ==
              if ji.inputFileId == sourceFileId && ji.jobRecipeId.None? then multiset(t.jobInputs)[ji] else 0
  {
    FilterCount(t.jobInputs, (ji: JobInputFile) => ji.inputFileId == sourceFileId && ji.jobRecipeId.None?);
  }

  /** The rows come in query order: the matching rows of an earlier part of
      the table come before those of a later part. */
  lemma JobInputsInQueryOrder(t: Tables, sourceFileId: int, front: seq<JobInputFile>, back: seq<JobInputFile>)
    requires t.jobInputs == front + back
    ensures JobInputsToPurge(t, sourceFileId)
            == JobInputsToPurge(t.(jobInputs := front), sourceFileId) + JobInputsToPurge(t.(jobInputs := back), sourceFileId)
  {
    FilterAppend(front, back, (ji: JobInputFile) => ji.inputFileId == sourceFileId && ji.jobRecipeId.None?);
  }

  /** The recipe inputs of the file whose recipe is not superseded. */
  function RecipeInputsToPurge(t: Tables, sourceFileId: int): (rows: seq<RecipeInputFile>)
    ensures forall i :: 0 <= i < |rows| ==>
              rows[i] in t.recipeInputs && rows[i].inputFileId == sourceFileId && !rows[i].recipeIsSuperseded
    ensures forall i :: 0 <= i < |t.recipeInputs| ==>
              (t.recipeInputs[i].inputFileId == sourceFileId && !t.recipeInputs[i].recipeIsSuperseded ==> t.recipeInputs[i] in rows)
  {
    Filter(t.recipeInputs, (ri: RecipeInputFile) => ri.inputFileId == sourceFileId && !ri.recipeIsSuperseded)
  }

  /** Each matching row of the table appears exactly as often as it occurs
      there, and no other row appears. */
  lemma RecipeInputsOnePerRow(t: Tables, sourceFileId: int)
    ensures forall ri :: multiset(RecipeInputsToPurge(t, sourceFileId))[ri] ==
              if ri.inputFileId == sourceFileId && !ri.recipeIsSuperseded then multiset(t.recipeInputs)[ri] else 0
  {
    FilterCount(t.recipeInputs, (ri: RecipeInputFile) => ri.inputFileId == sourceFileId && !ri.recipeIsSuperseded);
  }

  /** The rows come in query order: the matching rows of an earlier part of
      the table come before those of a later part. */
  lemma RecipeInputsInQueryOrder(t: Tables, sourceFileId: int, front: seq<RecipeInputFile>, back: seq<RecipeInputFile>)
    requires t.recipeInputs == front + back
    ensures RecipeInputsToPurge(t, sourceFileId)
            == RecipeInputsToPurge(t.(recipeInputs := front), sourceFileId)
               + RecipeInputsToPurge(t.(recipeInputs := back), sourceFileId)
  {
    FilterAppend(front, back, (ri: RecipeInputFile) => ri.inputFileId == sourceFileId && !ri.recipeIsSuperseded);
  }

  /** Nothing is left to purge first exactly when no job outside a recipe
      and no non-superseded recipe reads the file; only then are its rows
      deleted. */
  lemma {:induction false} NothingLeftToPurge(t: Tables, sourceFileId: int)
    ensures JobInputsToPurge(t, sourceFileId) == [] && RecipeInputsToPurge(t, sourceFileId) == []
            <==> && (forall i :: 0 <= i < |t.jobInputs| ==>
                       t.jobInputs[i].inputFileId != sourceFileId || t.jobInputs[i].jobRecipeId.Some?)
                 && (forall i :: 0 <= i < |t.recipeInputs| ==>
                       t.recipeInputs[i].inputFileId != sourceFileId || t.recipeInputs[i].recipeIsSuperseded)
  {
    FilterEmpty(t.jobInputs, (ji: JobInputFile) => ji.inputFileId == sourceFileId && ji.jobRecipeId.None?);
    FilterEmpty(t.recipeInputs, (ri: RecipeInputFile) => ri.inputFileId == sourceFileId && !ri.recipeIsSuperseded);
  }

  /** One spawn-delete-files-job message, with purging on, per job input. */
  function SpawnMessages(rows: seq<JobInputFile>, triggerId: int, sourceFileId: int): (ms: seq<Message>)
    ensures |ms| == |rows|
    ensures forall i :: 0 <= i < |rows| ==> ms[i] == SpawnDeleteFilesJob(rows[i].jobId, triggerId, sourceFileId, true)
  {
    seq(|rows|, i requires 0 <= i < |rows| => SpawnDeleteFilesJob(rows[i].jobId, triggerId, sourceFileId, true))
  }

  /** One purge-recipe message per recipe input. */
  function PurgeRecipeMessages(rows: seq<RecipeInputFile>, triggerId: int, sourceFileId: int): (ms: seq<Message>)
    ensures |ms| == |rows|
    ensures forall i :: 0 <= i < |rows| ==> ms[i] == PurgeRecipe(rows[i].recipeId, triggerId, sourceFileId)
  {
    seq(|rows|, i requires 0 <= i < |rows| => PurgeRecipe(rows[i].recipeId, triggerId, sourceFileId))
  }

  /** The tables once the file's ingests and file row are deleted and its
      purge is marked complete at `now`. */
  function Purged(t: Tables, sourceFileId: int, now: Timestamp): (u: Tables)
    ensures forall i :: 0 <= i < |u.ingests| ==> u.ingests[i] in t.ingests && u.ingests[i].sourceFileId != Some(sourceFileId)
    ensures forall i :: 0 <= i < |t.ingests| && t.ingests[i].sourceFileId != Some(sourceFileId) ==> t.ingests[i] in u.ingests
    ensures u.scaleFiles == t.scaleFiles - {sourceFileId}
    ensures u.purgeResults.Keys == t.purgeResults.Keys
    ensures sourceFileId in t.purgeResults ==>
              u.purgeResults[sourceFileId] == t.purgeResults[sourceFileId].(purgeCompleted := Some(now))
    ensures forall id :: id in t.purgeResults && id != sourceFileId ==> u.purgeResults[id] == t.purgeResults[id]
    ensures u.jobInputs == t.jobInputs && u.recipeInputs == t.recipeInputs
  {
    var results :=
      if sourceFileId in t.purgeResults
      then t.purgeResults[sourceFileId := t.purgeResults[sourceFileId].(purgeCompleted := Some(now))]
      else t.purgeResults;
    Tables(results, t.jobInputs, t.recipeInputs,
           Filter(t.ingests, (ing: Ingest) => ing.sourceFileId != Some(sourceFileId)),
           t.scaleFiles - {sourceFileId})
  }

  /** Purging twice is purging once, at the later time. */
  lemma PurgedIdempotent(t: Tables, sourceFileId: int, first: Timestamp, second: Timestamp)
    ensures Purged(Purged(t, sourceFileId, first), sourceFileId, second) == Purged(t, sourceFileId, second)
  {
    var p := (ing: Ingest) => ing.sourceFileId != Some(sourceFileId);
    var once := Purged(t, sourceFileId, first);
    assert once.ingests == Filter(t.ingests, p);
    FilterAll(once.ingests, p);
  }

  class PurgeSourceFile {
    const messageType: string
    var sourceFileId: int
    var triggerId: int
    var newMessages: seq<Message>

    constructor (sourceFileId: int, triggerId: int)
      ensures messageType == MessageType
      ensures this.sourceFileId == sourceFileId && this.triggerId == triggerId
      ensures newMessages == []
    {
      messageType := MessageType;
      this.sourceFileId := sourceFileId;
      this.triggerId := triggerId;
      newMessages := [];
    }

    function ToJson(): (j: Json)
      reads this
      ensures DecodeIds(j) == Ok((sourceFileId, triggerId))
    {
      EncodeIds(sourceFileId, triggerId)
    }

    static method FromJson(j: Json) returns (r: Result<PurgeSourceFile, JsonError>)
      ensures r.Err? <==> DecodeIds(j).Err?
      ensures r.Err? ==> r.error == DecodeIds(j).error
      ensures r.Ok? ==> && fresh(r.value)
                        && r.value.messageType == MessageType
                        && (r.value.sourceFileId, r.value.triggerId) == DecodeIds(j).value
                        && r.value.newMessages == []
    {
      var ids := DecodeIds(j);
      if ids.Err? {
        return Err(ids.error);
      }
      var message := new PurgeSourceFile(ids.value.0, ids.value.1);
      r := Ok(message);
    }

    /** Stops at once when the purge was force-stopped. Otherwise sends one
        spawn-delete-files-job message per job input of the file whose job
        is in no recipe and one purge-recipe message per input of the file
        to a non-superseded recipe, and deletes the file's rows only when
        there were neither. Always succeeds unless the file has no purge
        results row. */
    method Execute(db: Tables, now: Timestamp) returns (r: Result<bool, ExecuteError>, after: Tables)
      modifies this`newMessages
      ensures sourceFileId !in db.purgeResults ==>
                r == Err(PurgeResultsDoesNotExist(sourceFileId)) && after == db && newMessages == old(newMessages)
      ensures sourceFileId in db.purgeResults ==> r == Ok(true)
      ensures sourceFileId in db.purgeResults && db.purgeResults[sourceFileId].forceStopPurge ==>
                after == db && newMessages == old(newMessages)
      ensures sourceFileId in db.purgeResults && !db.purgeResults[sourceFileId].forceStopPurge ==>
                var jobs := JobInputsToPurge(db, sourceFileId);
                var recipes := RecipeInputsToPurge(db, sourceFileId);
                && newMessages == old(newMessages) + SpawnMessages(jobs, triggerId, sourceFileId)
                                  + PurgeRecipeMessages(recipes, triggerId, sourceFileId)
                && after == (if jobs == [] && recipes == [] then Purged(db, sourceFileId, now) else db)
    {
      after := db;
      if sourceFileId !in db.purgeResults {
        return Err(PurgeResultsDoesNotExist(sourceFileId)), after;
      }
      if db.purgeResults[sourceFileId].forceStopPurge {
        return Ok(true), after;
      }
      var jobInputs := JobInputsToPurge(db, sourceFileId);
      var recipeInputs := RecipeInputsToPurge(db, sourceFileId);
      SendSpawnMessages(jobInputs);
      SendPurgeRecipeMessages(recipeInputs);
      if jobInputs == [] && recipeInputs == [] {
        after := Purged(db, sourceFileId, now);
      }
      r := Ok(true);
    }

    /** Sends one spawn-delete-files-job message, with purging on, per job
        input, in order. */
    method SendSpawnMessages(jobInputs: seq<JobInputFile>)
      modifies this`newMessages
      ensures newMessages == old(newMessages) + SpawnMessages(jobInputs, triggerId, sourceFileId)
    {
      for i := 0 to |jobInputs|
        invariant newMessages == old(newMessages) + SpawnMessages(jobInputs[..i], triggerId, sourceFileId)
      {
        newMessages := newMessages + [SpawnDeleteFilesJob(jobInputs[i].jobId, triggerId, sourceFileId, true)];
      }
      assert jobInputs[..|jobInputs|] == jobInputs;
    }

    /** Sends one purge-recipe message per recipe input, in order. */
    method SendPurgeRecipeMessages(recipeInputs: seq<RecipeInputFile>)
      modifies this`newMessages
      ensures newMessages == old(newMessages) + PurgeRecipeMessages(recipeInputs, triggerId, sourceFileId)
    {
      for i := 0 to |recipeInputs|
        invariant newMessages == old(newMessages) + PurgeRecipeMessages(recipeInputs[..i], triggerId, sourceFileId)
      {
        newMessages := newMessages + [PurgeRecipe(recipeInputs[i].recipeId, triggerId, sourceFileId)];
      }
      assert recipeInputs[..|recipeInputs|] == recipeInputs;
    }
  }

  method CreatePurgeSourceFileMessage(sourceFileId: int, triggerId: int) returns (m: PurgeSourceFile)
    ensures fresh(m)
    ensures m.messageType == MessageType
    ensures m.sourceFileId == sourceFileId && m.triggerId == triggerId && m.newMessages == []
  {
    m := new PurgeSourceFile(sourceFileId, triggerId);
  }

  /** A message read back from its own JSON carries the same ids. */
  method JsonRoundTrip(m: PurgeSourceFile) returns (copy: PurgeSourceFile)
    ensures copy.messageType == MessageType
    ensures copy.sourceFileId == m.sourceFileId && copy.triggerId == m.triggerId
  {
    var r := PurgeSourceFile.FromJson(m.ToJson());
    copy := r.value;
  }
}
