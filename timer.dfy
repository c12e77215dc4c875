/** The work timer (src/components/timer/Timer.tsx): a stopwatch bound to one
    task that turns whole elapsed minutes into a time record. The one-second
    interval is the `Tick` method; the outcome of `timeRecordApi.create` and of
    `taskApi.getAll` are parameters. */
module WorkTimer {
  import opened Wrappers
  import opened Domain
  import opened Seqs
  import opened Text

  predicate ValidDraft(d: RecordDraft) { d.minutes >= 1 && d.taskId != 0 }

  /** What the timer submits to `timeRecordApi.create(tareaId, { tiempoDedicado, fecha, notas })`. */
  datatype RecordDraft = RecordDraft(taskId: int, minutes: int, date: Day, notes: Option<string>)

  const SelectTaskMessage := "Por favor selecciona una tarea"
  const MinimumMessage := "Debes tener al menos 1 minuto registrado"
  const SaveErrorMessage := "\U{274C} Error al guardar el registro"

  function SavedMessage(minutes: int): string
  {
    "\U{2705} " + IntToString(minutes) + " minutos guardados correctamente"
  }

  /** Whole minutes in an elapsed time (`Math.floor(segundos / 60)`): the remainder is dropped. */
  function WholeMinutes(seconds: nat): (m: nat)
    ensures m * 60 <= seconds < (m + 1) * 60
    ensures seconds >= 60 <==> m >= 1
  {
    seconds / 60
  }

  lemma WholeMinutesTruncates()
    ensures WholeMinutes(125) == 2 && WholeMinutes(59) == 0 && WholeMinutes(60) == 1
  {
  }

  /** The tasks offered by the selector: those not yet completed. */
  function NotCompleted(): Task -> bool
  {
    (t: Task) => t.status != Completada
  }

  /** The seconds spelled by an hours, minutes and seconds triple. */
  function Seconds(h: nat, m: nat, s: nat): nat
  {
    h * 3600 + m * 60 + s
  }

  /** Hours, minutes and seconds of an elapsed time, as `formatearTiempo` splits it. */
  function ClockFields(total: nat): (f: (nat, nat, nat))
    ensures f.1 < 60 && f.2 < 60
    ensures Seconds(f.0, f.1, f.2) == total
  {
    var h, r := total / 3600, total % 3600;
    assert total == 60 * (60 * h + r / 60) + r % 60;
    (h, r / 60, total % 60)
  }

  /** `String(n).padStart(2, "0")`. */
  function Pad2(n: nat): string
  {
    PadStart(Decimal(n), 2, '0')
  }

  /** `formatearTiempo`: `HH:MM:SS`, each field zero-padded to at least two digits. The display
      is never shorter than `00:00:00` and loses nothing: the elapsed seconds read back from it. */
  function FormatClock(total: nat): (s: string)
    ensures |s| >= 8
    ensures ParseClock(s) == Some(total)
  {
    var f := ClockFields(total);
    PaddedDecimal(f.0);
    PaddedDecimal(f.1);
    PaddedDecimal(f.2);
    PaddedClockValue(f.0, f.1, f.2);
    Pad2(f.0) + ":" + Pad2(f.1) + ":" + Pad2(f.2)
  }

  /** Reads an `H..H:MM:SS` display back into seconds; the last two fields are two digits wide. */
  function ParseClock(s: string): Option<nat>
  {
    var n := |s|;
    if n < 6 || s[n - 3] != ':' || s[n - 6] != ':' then None
    else ClockValue(s[..n - 6], s[n - 5..n - 3], s[n - 2..])
  }

  function ClockValue(hh: string, mm: string, ss: string): Option<nat>
  {
    if AllDigits(hh) && AllDigits(mm) && AllDigits(ss)
    then Some(Seconds(ParseNat(hh), ParseNat(mm), ParseNat(ss)))
    else None
  }

  lemma PaddedDecimal(n: nat)
    ensures AllDigits(Pad2(n)) && ParseNat(Pad2(n)) == n
    ensures |Pad2(n)| >= 2
    ensures n < 100 ==> |Pad2(n)| == 2
  {
    PadZerosValue(Decimal(n), 2);
    DecimalRoundTrip(n);
  }

  /** Three fields joined by colons, the last two two-wide, split back into those fields. */
  lemma ParseClockFields(hh: string, mm: string, ss: string)
    requires |mm| == 2 && |ss| == 2
    ensures ParseClock(hh + ":" + mm + ":" + ss) == ClockValue(hh, mm, ss)
  {
    var s := hh + ":" + mm + ":" + ss;
    var n := |s|;
    assert s[..n - 6] == hh;
    assert s[n - 5..n - 3] == mm;
    assert s[n - 2..] == ss;
  }

  lemma ClockValueOfDigits(hh: string, mm: string, ss: string)
    requires AllDigits(hh) && AllDigits(mm) && AllDigits(ss)
    ensures ClockValue(hh, mm, ss) == Some(Seconds(ParseNat(hh), ParseNat(mm), ParseNat(ss)))
  {
  }

  /** Three digit fields joined by colons read back as the time they spell. */
  lemma ClockFromFields(hh: string, mm: string, ss: string)
    requires AllDigits(hh) && AllDigits(mm) && AllDigits(ss) && |mm| == 2 && |ss| == 2
    ensures ParseClock(hh + ":" + mm + ":" + ss) == Some(Seconds(ParseNat(hh), ParseNat(mm), ParseNat(ss)))
  {
    ParseClockFields(hh, mm, ss);
    ClockValueOfDigits(hh, mm, ss);
  }

  /** Three zero-padded fields joined by colons read back as the time they spell. */
  lemma PaddedClockValue(h: nat, m: nat, sec: nat)
    requires m < 60 && sec < 60
    ensures ParseClock(Pad2(h) + ":" + Pad2(m) + ":" + Pad2(sec)) == Some(Seconds(h, m, sec))
  {
    PaddedDecimal(h);
    PaddedDecimal(m);
    PaddedDecimal(sec);
    ClockFromFields(Pad2(h), Pad2(m), Pad2(sec));
  }

  class Timer {
    var tasks: seq<Task>          // tasks offered by the selector
    var selectedTaskId: int       // 0: none selected
    var notes: string             // notas
    var seconds: nat              // segundos
    var running: bool             // corriendo
    var message: string           // mensaje
    ghost var created: seq<RecordDraft>  // records the store accepted, oldest first
    ghost var notifications: nat         // calls of onRecordSaved

    ghost predicate Valid()
      reads this
    {
      && (running ==> selectedTaskId != 0)
      && (forall d :: d in created ==> ValidDraft(d))
      && notifications == |created|
    }

    /** "Paused": stopped with time on the clock (the button reads "Reanudar"). */
    predicate Paused()
      reads this
    {
      !running && seconds > 0
    }

    function StartLabel(): string
      reads this
    {
      if seconds == 0 then "Iniciar" else "Reanudar"
    }

    /** Button and input enable conditions of the view. */
    predicate StartEnabled() reads this { !running && selectedTaskId != 0 }
    predicate PauseShown() reads this { running }
    predicate StopEnabled() reads this { seconds != 0 }
    predicate SaveEnabled() reads this { seconds >= 60 && !running }
    predicate InputsEnabled() reads this { !running }

    constructor ()
      ensures Valid()
      ensures tasks == [] && selectedTaskId == 0 && notes == "" && seconds == 0
      ensures !running && message == "" && created == [] && notifications == 0
    {
      tasks, selectedTaskId, notes := [], 0, "";
      seconds, running, message := 0, false, "";
      created, notifications := [], 0;
    }

    /** `loadTasks`: offer the tasks that are not completed and, when none is selected, select the first. */
    method LoadTasks(fetchOk: bool, fetched: seq<Task>)
      requires Valid()
      modifies this
      ensures Valid()
      ensures tasks == if fetchOk then Filter(NotCompleted(), fetched) else old(tasks)
      ensures forall i :: 0 <= i < |tasks| && fetchOk ==> tasks[i].status != Completada
      ensures selectedTaskId ==
        if fetchOk && |tasks| > 0 && old(selectedTaskId) == 0 then tasks[0].id.GetOr(0) else old(selectedTaskId)
      ensures notes == old(notes) && seconds == old(seconds) && running == old(running)
      ensures message == old(message) && created == old(created) && notifications == old(notifications)
    {
      if fetchOk {
        var active := Filter(NotCompleted(), fetched);
        tasks := active;
        if |active| > 0 && selectedTaskId == 0 {
          selectedTaskId := active[0].id.GetOr(0);
        }
      }
    }

    /** The task selector's `onChange`; the control is disabled while running. */
    method SelectTask(id: int)
      requires Valid()
      modifies this
      ensures Valid()
      ensures selectedTaskId == if old(running) then old(selectedTaskId) else id
      ensures tasks == old(tasks) && notes == old(notes) && seconds == old(seconds) && running == old(running)
      ensures message == old(message) && created == old(created) && notifications == old(notifications)
    {
      if !running {
        selectedTaskId := id;
      }
    }

    /** The notes box's `onChange`; the control is disabled while running. */
    method EditNotes(text: string)
      requires Valid()
      modifies this
      ensures Valid()
      ensures notes == if old(running) then old(notes) else text
      ensures tasks == old(tasks) && selectedTaskId == old(selectedTaskId) && seconds == old(seconds)
      ensures running == old(running) && message == old(message)
      ensures created == old(created) && notifications == old(notifications)
    {
      if !running {
        notes := text;
      }
    }

    /** `handleIniciar`: start, or resume, when a task is selected. */
    method Start()
      requires Valid()
      modifies this
      ensures Valid()
      ensures old(selectedTaskId) == 0 ==> !running && message == SelectTaskMessage
      ensures old(selectedTaskId) != 0 ==> running && message == ""
      ensures old(selectedTaskId) == 0 ==> running == old(running)
      ensures tasks == old(tasks) && selectedTaskId == old(selectedTaskId) && notes == old(notes)
      ensures seconds == old(seconds) && created == old(created) && notifications == old(notifications)
    {
      if selectedTaskId == 0 {
        message := SelectTaskMessage;
        return;
      }
      running := true;
      message := "";
    }

    /** `handlePausar`: freeze the counter. */
    method Pause()
      requires Valid()
      modifies this
      ensures Valid()
      ensures !running
      ensures tasks == old(tasks) && selectedTaskId == old(selectedTaskId) && notes == old(notes)
      ensures seconds == old(seconds) && message == old(message)
      ensures created == old(created) && notifications == old(notifications)
    {
      running := false;
    }

    /** `handleDetener`: stop and discard the elapsed time. */
    method Stop()
      requires Valid()
      modifies this
      ensures Valid()
      ensures !running && seconds == 0 && message == ""
      ensures tasks == old(tasks) && selectedTaskId == old(selectedTaskId) && notes == old(notes)
      ensures created == old(created) && notifications == old(notifications)
    {
      running := false;
      seconds := 0;
      message := "";
    }

    /** One firing of the one-second interval, which exists only while running. */
    method Tick()
      requires Valid()
      modifies this
      ensures Valid()
      ensures seconds == if old(running) then old(seconds) + 1 else old(seconds)
      ensures tasks == old(tasks) && selectedTaskId == old(selectedTaskId) && notes == old(notes)
      ensures running == old(running) && message == old(message)
      ensures created == old(created) && notifications == old(notifications)
    {
      if running {
        seconds := seconds + 1;
      }
    }

    /** `handleGuardar`: submit the whole minutes elapsed as a record dated `today`;
        `createOk` is the outcome of `timeRecordApi.create`. Returns what was submitted. */
    method Save(today: Day, createOk: bool) returns (sent: Option<RecordDraft>)
      requires Valid()
      modifies this`notes, this`seconds, this`running, this`message, this`created, this`notifications
      ensures Valid()
      // validation failures touch only the message
      ensures old(selectedTaskId) == 0 ==> sent == None && message == SelectTaskMessage
      ensures old(selectedTaskId) != 0 && old(seconds) < 60 ==> sent == None && message == MinimumMessage
      ensures sent == None ==>
        && notes == old(notes) && seconds == old(seconds) && running == old(running)
        && created == old(created) && notifications == old(notifications)
      // a valid save always submits the floor of the elapsed minutes and stops the clock
      ensures old(selectedTaskId) != 0 && old(seconds) >= 60 ==>
        && sent.Some? && !running
        && sent.value == RecordDraft(old(selectedTaskId), WholeMinutes(old(seconds)), today,
                                     if old(notes) == "" then None else Some(old(notes)))
      ensures sent.Some? && createOk ==>
        && seconds == 0 && notes == ""
        && message == SavedMessage(sent.value.minutes)
        && created == old(created) + [sent.value] && notifications == old(notifications) + 1
      ensures sent.Some? && !createOk ==>
        && seconds == old(seconds) && notes == old(notes)
        && message == SaveErrorMessage
        && created == old(created) && notifications == old(notifications)
    {
      if selectedTaskId == 0 {
        message := SelectTaskMessage;
        return None;
      }
      if seconds < 60 {
        message := MinimumMessage;
        return None;
      }
      var minutes := WholeMinutes(seconds);
      running := false;
      var draft := RecordDraft(selectedTaskId, minutes, today, if notes == "" then None else Some(notes));
      sent := Some(draft);
      if createOk {
        message := SavedMessage(minutes);
        seconds := 0;
        notes := "";
        created := created + [draft];
        notifications := notifications + 1;
      } else {
        message := SaveErrorMessage;
      }
    }
  }

  /** The view's controls agree with the state: the start button reads "Reanudar" exactly when
      paused, saving needs a stoppable clock holding at least one whole minute, and the selector
      and notes are locked exactly while the pause button shows. */
  lemma ControlsAgree(t: Timer)
    ensures !t.running ==> (t.StartLabel() == "Reanudar" <==> t.Paused())
    ensures t.SaveEnabled() ==> t.StopEnabled() && WholeMinutes(t.seconds) >= 1
    ensures t.InputsEnabled() <==> !t.PauseShown()
  {
    if t.seconds == 0 {
      assert t.StartLabel()[0] != "Reanudar"[0];
    }
  }
}
