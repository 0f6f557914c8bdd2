/**
 Keyboard events of the project kernel: a key interrupt diverts the running process to its handler,
 on a stack of its own, and the resume trap returns it to where it was.
 */
module Keyboard {
  import opened Sequences

  const WORD := 0x1_0000_0000
  type Word = w: int | 0 <= w < WORD

  const KERNEL_STACK_SIZE: nat := 1024
  const CTX: nat := 16
  /** Where the sixteen saved registers start on the kernel stack. */
  const CONTEXT: nat := KERNEL_STACK_SIZE - CTX
  const EIP: nat := 11
  const ESP: nat := 14

  const PAGE_WORDS: nat := 1024
  const AUX_STACK_PAGE: nat := 1021
  const AUX_STACK_TOP: Word := (AUX_STACK_PAGE + 1) * 4096

  const EFAULT := 14
  const ENOMEM := 12
  const EINPROGRESS := 115

  /** `user` are the registers of the process while it runs; a stack or handler of zero stands for none. */
  datatype Task = Task(
    user: seq<Word>, saved: seq<Word>, handler: Word, wrapper: Word, auxTop: Word, inContext: bool, aux: seq<Word>)

  ghost predicate Ok(k: Task) {
    && |k.user| == |k.saved| == CTX && |k.aux| == PAGE_WORDS
    && (k.auxTop == 0 || k.auxTop == AUX_STACK_TOP)
    && (k.handler != 0 ==> k.auxTop != 0)
  }

  predicate Accepts(k: Task) {
    k.handler != 0 && !k.inContext
  }

  /** The key code and the pressed flag of a scan code. */
  function Diverted(k: Task, scancode: nat): Task
    requires Ok(k) && scancode < 256
  {
    if !Accepts(k) then k else
    var pressed := if scancode < 128 then 1 else 0;
    k.(inContext := true, saved := k.user, user := k.user[EIP := k.wrapper][ESP := k.auxTop - 16],
       aux := k.aux[PAGE_WORDS - 4 := 0][PAGE_WORDS - 3 := k.handler][PAGE_WORDS - 2 := scancode % 128][PAGE_WORDS - 1 := pressed])
  }

  function Resumed(k: Task): Task {
    if k.inContext then k.(user := k.saved, inContext := false) else k
  }

  /** The address check for a function pointer. */
  predicate UserPointer(p: Word) {
    256 <= p / 4096 <= (p + 4) % WORD / 4096 < 1024
  }

  /** `room` tells whether a frame for the stack can be had. */
  function Registered(k: Task, func: Word, wrapper: Word, room: bool): (Task, int) {
    if k.inContext then (k, -EINPROGRESS)
    else if func == 0 then (k.(handler := 0, saved := Filled(CTX, 0), auxTop := 0), 0)
    else if !UserPointer(func) || !UserPointer(wrapper) then (k, -EFAULT)
    else if k.auxTop == 0 && !room then (k, -ENOMEM)
    else (k.(handler := func, wrapper := wrapper, auxTop := AUX_STACK_TOP), 0)
  }

  // Runs

  /** What can happen to a process that stays alive: its own code runs, a key arrives, or it makes a call. */
  datatype Event = Compute(user: seq<Word>) | Key(scancode: nat) | Resume | Register(func: Word, wrapper: Word, room: bool)

  ghost predicate Possible(e: Event) {
    (e.Compute? ==> |e.user| == CTX) && (e.Key? ==> e.scancode < 256)
  }

  ghost function Next(k: Task, e: Event): (k': Task)
    requires Ok(k) && Possible(e)
    ensures Ok(k')
  {
    match e
    case Compute(user) => k.(user := user)
    case Key(scancode) => Diverted(k, scancode)
    case Resume => Resumed(k)
    case Register(func, wrapper, room) => Registered(k, func, wrapper, room).0
  }

  ghost function After(k: Task, events: seq<Event>): (k': Task)
    requires Ok(k) && forall e :: e in events ==> Possible(e)
    ensures Ok(k')
    decreases |events|
  {
    if events == [] then k else After(Next(k, events[0]), events[1..])
  }

  /** While the handler runs, nothing but the resume trap touches what was saved or who handles keys. */
  lemma {:induction false} HandlerKeepsContext(k: Task, events: seq<Event>)
    requires Ok(k) && k.inContext && forall e :: e in events ==> Possible(e) && !e.Resume?
    ensures var k' := After(k, events);
            k'.inContext && k'.saved == k.saved && k'.handler == k.handler && k'.wrapper == k.wrapper
    decreases |events|
  {
    if events != [] {
      var e := events[0];
      assert e in events;
      HandlerKeepsContext(Next(k, e), events[1..]);
    }
  }

  /**
   A key reaches the handler: the process goes on in the wrapper, on its other stack, where it finds the
   handler, the key and whether the key was pressed. All other registers and words are kept. Without a handler,
   or while it runs, a key changes nothing.
   */
  lemma KeysReachTheHandler(k: Task, c: nat)
    requires Ok(k) && c < 256
    ensures var k' := Next(k, Key(c));
            if k.handler == 0 || k.inContext then k' == k
            else
              && k'.user[11] == k.wrapper && k'.user[14] == AUX_STACK_TOP - 16
              && (forall i :: 0 <= i < 16 && i != 11 && i != 14 ==> k'.user[i] == k.user[i])
              && k'.aux[1020] == 0 && k'.aux[1021] == k.handler && k'.aux[1022] == c % 128
              && (if c < 128 then k'.aux[1023] == 1 else k'.aux[1023] == 0)
              && (forall i :: 0 <= i < 1020 ==> k'.aux[i] == k.aux[i])
              && k'.inContext && k'.saved == k.user
              && k'.handler == k.handler && k'.wrapper == k.wrapper && k'.auxTop == k.auxTop
  {
  }

  /** The pages from 256 to 1023 hold what a process may point at; the four bytes must all lie there. */
  lemma UserPointerMeans(p: Word)
    ensures UserPointer(p) <==> 0x10_0000 <= p && p + 4 < 0x40_0000
  {
  }

  /** What the process asks for by a registration, and what it gets. */
  lemma RegistrationMeans(k: Task, func: Word, wrapper: Word, room: bool)
    requires Ok(k)
    ensures var (k', r) := Registered(k, func, wrapper, room);
            var inside := 0x10_0000 <= func && func + 4 < 0x40_0000 && 0x10_0000 <= wrapper && wrapper + 4 < 0x40_0000;
            && (r == -115 <==> k.inContext) && (r == -14 <==> !k.inContext && func != 0 && !inside)
            && (r == -12 <==> !k.inContext && func != 0 && inside && k.auxTop == 0 && !room)
            && (r < 0 <==> r == -115 || r == -14 || r == -12) && (r < 0 ==> k' == k) && (r >= 0 ==> r == 0)
            && (r == 0 ==> k'.handler == func && !k'.inContext && k'.user == k.user && k'.aux == k.aux && (k'.auxTop == 0 <==> func == 0))
            && (r == 0 && func == 0 ==> k'.wrapper == k.wrapper && forall i :: 0 <= i < 16 ==> k'.saved[i] == 0)
            && (r == 0 && func != 0 ==> k'.wrapper == wrapper && k'.saved == k.saved)
  {
    UserPointerMeans(func);
    UserPointerMeans(wrapper);
  }

  /**
   Whatever the handler does, and whatever keys arrive meanwhile, the process resumes with the sixteen
   registers it had when the key interrupted it, and can be interrupted again.
   */
  lemma KeysAreTransparent(k: Task, scancode: nat, events: seq<Event>)
    requires Ok(k) && scancode < 256 && Accepts(k) && forall e :: e in events ==> Possible(e) && !e.Resume?
    ensures var k' := Next(After(Next(k, Key(scancode)), events), Resume);
            k'.user == k.user && k'.handler == k.handler && k'.wrapper == k.wrapper && Accepts(k')
  {
    HandlerKeepsContext(Next(k, Key(scancode)), events);
  }

  class KeyboardTask {
    const stack: array<Word>
    const savedCtx: array<Word>
    const auxPage: array<Word>
    var user: seq<Word>
    var handler: Word
    var wrapper: Word
    var auxStack: Word
    var inContext: bool

    /** The keyboard fields of a new task. */
    constructor (registers: seq<Word>)
      requires |registers| == CTX
      ensures Valid() && View() == Task(registers, Filled(CTX, 0), 0, 0, 0, false, Filled(PAGE_WORDS, 0))
      ensures fresh(stack) && fresh(savedCtx) && fresh(auxPage)
    {
      hide Filled;
      stack := new Word[KERNEL_STACK_SIZE](_ => 0);
      savedCtx := new Word[CTX](_ => 0);
      auxPage := new Word[PAGE_WORDS](_ => 0);
      user, handler, wrapper, auxStack, inContext := registers, 0, 0, 0, false;
      new;
      assert savedCtx[..] == Filled(CTX, 0) && auxPage[..] == Filled(PAGE_WORDS, 0);
    }

    ghost predicate Valid()
      reads this, stack, savedCtx, auxPage
    {
      && stack.Length == KERNEL_STACK_SIZE && savedCtx.Length == CTX && auxPage.Length == PAGE_WORDS
      && stack != savedCtx && stack != auxPage && savedCtx != auxPage && Ok(View())
    }

    ghost function View(): Task
      reads this, savedCtx, auxPage
    {
      Task(user, savedCtx[..], handler, wrapper, auxStack, inContext, auxPage[..])
    }

    /** Entry to the kernel pushes the registers. */
    method SaveAll()
      requires stack.Length == KERNEL_STACK_SIZE && |user| == CTX
      modifies stack
      ensures stack[CONTEXT..] == user
    {
      for i := 0 to CTX
        invariant stack[CONTEXT..CONTEXT + i] == user[..i]
      {
        stack[CONTEXT + i] := user[i];
      }
    }

    /** Leaving the kernel pops them. */
    method RestoreAll()
      requires stack.Length == KERNEL_STACK_SIZE
      modifies this`user
      ensures user == stack[CONTEXT..]
    {
      user := stack[CONTEXT..];
    }

    method KbdIrqHandler(scancode: nat)
      requires Valid() && stack[CONTEXT..] == user && scancode < 256
      modifies this`inContext, stack, savedCtx, auxPage
      ensures Valid()
      ensures var k := Diverted(old(View()), scancode); View() == k.(user := user) && stack[CONTEXT..] == k.user
    {
      var pressed := if scancode < 128 then 1 else 0;
      var key := scancode % 128;
      if handler == 0 || inContext {
        return;
      }
      inContext := true;
      SaveContext();
      auxPage[PAGE_WORDS - 4] := 0;
      auxPage[PAGE_WORDS - 3] := handler;
      auxPage[PAGE_WORDS - 2] := key;
      auxPage[PAGE_WORDS - 1] := pressed;
      stack[CONTEXT + EIP] := wrapper;
      stack[CONTEXT + ESP] := auxStack - 16;
    }

    method SaveContext()
      requires stack.Length == KERNEL_STACK_SIZE && savedCtx.Length == CTX && stack != savedCtx
      modifies savedCtx
      ensures savedCtx[..] == stack[CONTEXT..]
    {
      for i := 0 to CTX
        invariant savedCtx[..i] == stack[CONTEXT..CONTEXT + i]
      {
        savedCtx[i] := stack[CONTEXT + i];
      }
    }

    method KbdResumeHandler()
      requires Valid() && stack[CONTEXT..] == user
      modifies this`inContext, stack
      ensures Valid()
      ensures var k := Resumed(old(View())); View() == k.(user := user) && stack[CONTEXT..] == k.user
    {
      if !inContext {
        return;
      }
      for i := 0 to CTX
        invariant stack[CONTEXT..CONTEXT + i] == savedCtx[..i]
      {
        stack[CONTEXT + i] := savedCtx[i];
      }
      assert savedCtx[..CTX] == savedCtx[..];
      inContext := false;
    }

    method KbdIrqEntry(scancode: nat)
      requires Valid() && scancode < 256
      modifies this, stack, savedCtx, auxPage
      ensures Valid() && View() == Diverted(old(View()), scancode)
    {
      SaveAll();
      KbdIrqHandler(scancode);
      RestoreAll();
    }

    method KbdResumeEntry()
      requires Valid()
      modifies this, stack
      ensures Valid() && View() == Resumed(old(View()))
    {
      SaveAll();
      KbdResumeHandler();
      RestoreAll();
    }

    method CleanupKbdHandler()
      requires Valid()
      modifies this, savedCtx
      ensures Valid() && View() == old(View()).(handler := 0, inContext := false, saved := Filled(CTX, 0), auxTop := 0)
    {
      hide Filled;
      handler, inContext := 0, false;
      for i := 0 to CTX
        invariant View() == old(View()).(handler := 0, inContext := false, saved := savedCtx[..])
        invariant forall j :: 0 <= j < i ==> savedCtx[j] == 0
      {
        savedCtx[i] := 0;
      }
      assert savedCtx[..] == Filled(CTX, 0);
      auxStack := 0;
    }

    method SysKeyboardEvent(func: Word, wrap: Word, room: bool) returns (r: int)
      requires Valid()
      modifies this, savedCtx
      ensures Valid() && (View(), r) == Registered(old(View()), func, wrap, room)
    {
      hide Filled;
      if inContext {
        return -EINPROGRESS;
      }
      if func == 0 {
        CleanupKbdHandler();
        return 0;
      }
      if !UserPointer(func) {
        return -EFAULT;
      }
      if !UserPointer(wrap) {
        return -EFAULT;
      }
      if auxStack == 0 {
        if !room {
          return -ENOMEM;
        }
        auxStack := AUX_STACK_TOP;
      }
      handler, wrapper, inContext := func, wrap, false;
      return 0;
    }

    /** Whatever the code of the process computes and whichever keys and calls come, the task goes through the states of the model. */
    method Run(events: seq<Event>)
      requires Valid() && forall e :: e in events ==> Possible(e)
      modifies this, stack, savedCtx, auxPage
      ensures Valid() && View() == After(old(View()), events)
    {
      hide Diverted, Resumed, Registered;
      for i := 0 to |events|
        invariant Valid() && After(View(), events[i..]) == After(old(View()), events)
      {
        assert events[i] in events && events[i..][1..] == events[i + 1..];
        match events[i]
        case Compute(registers) => user := registers;
        case Key(scancode) => KbdIrqEntry(scancode);
        case Resume => KbdResumeEntry();
        case Register(func, wrap, room) => var _ := SysKeyboardEvent(func, wrap, room);
      }
    }
  }
}
