/**
 * The builder pattern exercise: a `ComputerBuilder` starts from the three essential
 * components, has fluent setters for the optional ones, and `Build` copies its nine
 * fields into an immutable `Computer`. `ToString` renders a computer as eleven lines.
 */
module ComputerAssembly {
  import opened Text

  /** The built product; its properties have private setters, so it is a value. */
  datatype Computer = Computer(
    cpu: string, ramGb: int, storage: string,
    gpu: string, operatingSystem: string, monitor: string,
    hasWebcam: bool, hasKeyboard: bool, hasMouse: bool)

  const Header := "--- Computer Configuration ---"
  const Footer := "----------------------------"

  function YesNo(b: bool): string {
    if b then "Yes" else "No"
  }

  /** The lines `ToString` appends, each then ended by a newline. */
  function ConfigurationLines(c: Computer): (lines: seq<string>)
    ensures |lines| == 11 && lines[0] == Header && lines[10] == Footer
  {
    [Header,
     "CPU: " + c.cpu,
     "RAM: " + IntToText(c.ramGb) + " GB",
     "Storage: " + c.storage,
     "GPU: " + c.gpu,
     "OS: " + c.operatingSystem,
     "Monitor: " + c.monitor,
     "Webcam: " + YesNo(c.hasWebcam),
     "Keyboard: " + YesNo(c.hasKeyboard),
     "Mouse: " + YesNo(c.hasMouse),
     Footer]
  }

  /** Reads "Yes" or "No" back. */
  function ReadFlag(text: string): Option<bool> {
    if text == "Yes" then Some(true) else if text == "No" then Some(false) else None
  }

  /** Reads "{n} GB" back. */
  function ReadRam(text: string): Option<int> {
    if |text| >= 3 && text[|text| - 3..] == " GB" then ParseInt(text[..|text| - 3]) else None
  }

  /** Reads a rendered configuration back into the computer it describes. */
  function ReadConfiguration(lines: seq<string>): Option<Computer> {
    if |lines| != 11 || lines[0] != Header || lines[10] != Footer then None
    else
      var cpu, ram, storage := StripPrefix(lines[1], "CPU: "), StripPrefix(lines[2], "RAM: "), StripPrefix(lines[3], "Storage: ");
      var gpu, os, monitor := StripPrefix(lines[4], "GPU: "), StripPrefix(lines[5], "OS: "), StripPrefix(lines[6], "Monitor: ");
      var webcam, keyboard, mouse := StripPrefix(lines[7], "Webcam: "), StripPrefix(lines[8], "Keyboard: "), StripPrefix(lines[9], "Mouse: ");
      if cpu.None? || ram.None? || storage.None? || gpu.None? || os.None? || monitor.None? ||
         webcam.None? || keyboard.None? || mouse.None? then None
      else
        var ramGb, w, k, m := ReadRam(ram.value), ReadFlag(webcam.value), ReadFlag(keyboard.value), ReadFlag(mouse.value);
        if ramGb.None? || w.None? || k.None? || m.None? then None
        else Some(Computer(cpu.value, ramGb.value, storage.value, gpu.value, os.value, monitor.value,
                           w.value, k.value, m.value))
  }

  lemma RamRoundTrip(n: int)
    ensures ReadRam(IntToText(n) + " GB") == Some(n)
  {
    var text := IntToText(n) + " GB";
    assert text[|text| - 3..] == " GB";
    assert text[..|text| - 3] == IntToText(n);
    IntToTextRoundTrip(n);
  }

  /** The rendering loses nothing: every one of the nine properties can be read back from it. */
  lemma ConfigurationRoundTrip(c: Computer)
    ensures ReadConfiguration(ConfigurationLines(c)) == Some(c)
  {
    StripPrefixOf("CPU: ", c.cpu);
    StripPrefixOf("RAM: ", IntToText(c.ramGb) + " GB");
    assert "RAM: " + IntToText(c.ramGb) + " GB" == "RAM: " + (IntToText(c.ramGb) + " GB");
    RamRoundTrip(c.ramGb);
    StripPrefixOf("Storage: ", c.storage);
    StripPrefixOf("GPU: ", c.gpu);
    StripPrefixOf("OS: ", c.operatingSystem);
    StripPrefixOf("Monitor: ", c.monitor);
    StripPrefixOf("Webcam: ", YesNo(c.hasWebcam));
    StripPrefixOf("Keyboard: ", YesNo(c.hasKeyboard));
    StripPrefixOf("Mouse: ", YesNo(c.hasMouse));
  }

  /** Different computers render differently. */
  lemma ConfigurationInjective(a: Computer, b: Computer)
    requires ConfigurationLines(a) == ConfigurationLines(b)
    ensures a == b
  {
    ConfigurationRoundTrip(a);
    ConfigurationRoundTrip(b);
  }

  /**
   * The string `ToString` returns: every line ended by a newline (`Environment.NewLine`,
   * taken here as "\n").
   */
  function ConfigurationText(c: Computer): string {
    Terminated(ConfigurationLines(c), '\n')
  }

  /** None of the free-text properties holds a line break. */
  predicate NoNewlines(c: Computer) {
    '\n' !in c.cpu && '\n' !in c.storage && '\n' !in c.gpu &&
    '\n' !in c.operatingSystem && '\n' !in c.monitor
  }

  /** Reads the rendered string back: eleven newline-ended lines and nothing after them. */
  function ReadConfigurationText(text: string): Option<Computer> {
    var pieces := Split(text, '\n');
    if |pieces| != 12 || pieces[11] != "" then None else ReadConfiguration(pieces[..11])
  }

  lemma ConfigurationTextLines(c: Computer)
    requires NoNewlines(c)
    ensures Split(ConfigurationText(c), '\n') == ConfigurationLines(c) + [""]
  {
    var lines := ConfigurationLines(c);
    IntToTextHasNo(c.ramGb, '\n');
    assert forall k :: 0 <= k < |lines| ==> '\n' !in lines[k];
    SplitTerminated(lines, '\n');
  }

  /** When no property holds a line break, the string itself loses nothing. */
  lemma ConfigurationTextRoundTrip(c: Computer)
    requires NoNewlines(c)
    ensures ReadConfigurationText(ConfigurationText(c)) == Some(c)
  {
    ConfigurationTextLines(c);
    assert (ConfigurationLines(c) + [""])[..11] == ConfigurationLines(c);
    ConfigurationRoundTrip(c);
  }

  /** Different line-break-free computers render to different strings. */
  lemma ConfigurationTextInjective(a: Computer, b: Computer)
    requires NoNewlines(a) && NoNewlines(b)
    requires ConfigurationText(a) == ConfigurationText(b)
    ensures a == b
  {
    ConfigurationTextRoundTrip(a);
    ConfigurationTextRoundTrip(b);
  }

  /**
   * Without that condition the string is ambiguous: a line break inside the storage or the
   * GPU text lets two different computers print the same configuration.
   */
  lemma LineBreakMakesTextAmbiguous(c: Computer)
    ensures var a := c.(storage := "s\nGPU: g1", gpu := "g2");
            var b := c.(storage := "s", gpu := "g1\nGPU: g2");
            a != b && ConfigurationText(a) == ConfigurationText(b)
  {
    var a := c.(storage := "s\nGPU: g1", gpu := "g2");
    var b := c.(storage := "s", gpu := "g1\nGPU: g2");
    var la, lb := ConfigurationLines(a), ConfigurationLines(b);
    var p, q := la[..3], la[5..];
    assert la == p + [la[3], la[4]] + q;
    assert lb == p + [lb[3], lb[4]] + q;
    assert la[3] == "Storage: " + a.storage && la[4] == "GPU: " + a.gpu;
    assert lb[3] == "Storage: " + b.storage && lb[4] == "GPU: " + b.gpu;
    assert "Storage: " + "s\nGPU: g1" + ['\n'] + ("GPU: " + "g2") == "Storage: " + "s" + ['\n'] + ("GPU: " + "g1\nGPU: g2");
    TerminatedSplice(p, la[3], la[4], lb[3], lb[4], q);
  }

  /** Two neighbouring lines can trade text across the line break between them unnoticed. */
  lemma TerminatedSplice(p: seq<string>, x: string, y: string, x': string, y': string, q: seq<string>)
    requires x + ['\n'] + y == x' + ['\n'] + y'
    ensures Terminated(p + [x, y] + q, '\n') == Terminated(p + [x', y'] + q, '\n')
  {
    TerminatedAppend(p + [x, y], q, '\n');
    TerminatedAppend(p, [x, y], '\n');
    TerminatedAppend(p + [x', y'], q, '\n');
    TerminatedAppend(p, [x', y'], '\n');
    assert [x, y][1..] == [y] && [y][1..] == [];
    assert [x', y'][1..] == [y'] && [y'][1..] == [];
    calc {
      Terminated([x, y], '\n');
      x + ['\n'] + Terminated([y], '\n');
      x + ['\n'] + (y + ['\n'] + Terminated([], '\n'));
      (x + ['\n'] + y) + ['\n'];
      (x' + ['\n'] + y') + ['\n'];
      x' + ['\n'] + (y' + ['\n'] + Terminated([], '\n'));
      x' + ['\n'] + Terminated([y'], '\n');
      Terminated([x', y'], '\n');
    }
  }

  class ComputerBuilder {
    var cpu: string
    var ramGb: int
    var storage: string
    var gpu: string
    var operatingSystem: string
    var monitor: string
    var hasWebcam: bool
    var hasKeyboard: bool
    var hasMouse: bool

    /** The nine fields as they stand. */
    function Fields(): Computer
      reads this
    {
      Computer(cpu, ramGb, storage, gpu, operatingSystem, monitor, hasWebcam, hasKeyboard, hasMouse)
    }

    /** The essentials are given; the GPU is integrated, there is no OS and no monitor, and no peripherals. */
    constructor (cpu: string, ramGb: int, storage: string)
      ensures Fields() == Computer(cpu, ramGb, storage, "Integrated", "None", "None", false, false, false)
    {
      this.cpu := cpu;
      this.ramGb := ramGb;
      this.storage := storage;
      gpu := "Integrated";
      operatingSystem := "None";
      monitor := "None";
      hasWebcam := false;
      hasKeyboard := false;
      hasMouse := false;
    }

    method WithGpu(gpu: string) returns (b: ComputerBuilder)
      modifies this
      ensures b == this && Fields() == old(Fields()).(gpu := gpu)
    {
      this.gpu := gpu;
      b := this;
    }

    method WithOperatingSystem(os: string) returns (b: ComputerBuilder)
      modifies this
      ensures b == this && Fields() == old(Fields()).(operatingSystem := os)
    {
      operatingSystem := os;
      b := this;
    }

    method WithMonitor(monitor: string) returns (b: ComputerBuilder)
      modifies this
      ensures b == this && Fields() == old(Fields()).(monitor := monitor)
    {
      this.monitor := monitor;
      b := this;
    }

    /** Sets the flag; adding twice is the same as adding once. */
    method AddWebcam() returns (b: ComputerBuilder)
      modifies this
      ensures b == this && Fields() == old(Fields()).(hasWebcam := true)
    {
      hasWebcam := true;
      b := this;
    }

    method AddKeyboard() returns (b: ComputerBuilder)
      modifies this
      ensures b == this && Fields() == old(Fields()).(hasKeyboard := true)
    {
      hasKeyboard := true;
      b := this;
    }

    method AddMouse() returns (b: ComputerBuilder)
      modifies this
      ensures b == this && Fields() == old(Fields()).(hasMouse := true)
    {
      hasMouse := true;
      b := this;
    }

    /** A computer whose nine properties are the builder's fields at this moment; the builder is untouched. */
    method Build() returns (c: Computer)
      ensures c == Fields()
      ensures c.cpu == cpu && c.ramGb == ramGb && c.storage == storage
      ensures c.gpu == gpu && c.operatingSystem == operatingSystem && c.monitor == monitor
      ensures c.hasWebcam == hasWebcam && c.hasKeyboard == hasKeyboard && c.hasMouse == hasMouse
    {
      c := Computer(cpu, ramGb, storage, gpu, operatingSystem, monitor, hasWebcam, hasKeyboard, hasMouse);
    }
  }

  /**
   * The office computer of the exercise's first example; changing the builder after
   * `Build` leaves the built computer as it was.
   */
  method OfficeComputer() returns (c: Computer)
    ensures c == Computer("Intel Core i5", 8, "256GB SSD", "Integrated", "Windows 10 Pro", "None", false, true, true)
    ensures ConfigurationLines(c)[7] == "Webcam: No" && ConfigurationLines(c)[9] == "Mouse: Yes"
  {
    var builder := new ComputerBuilder("Intel Core i5", 8, "256GB SSD");
    var b := builder.WithOperatingSystem("Windows 10 Pro");
    b := b.AddKeyboard();
    b := b.AddMouse();
    c := b.Build();
    b := b.WithGpu("NVIDIA GeForce RTX 4080");
    b := b.AddWebcam();
  }
}
