/** The builder pattern's computer: a `Computer` with placeholder parts, and
    a `ComputerBuilder` whose fluent setters each fill in one part of the
    same computer that `build` hands out. */
module ComputerBuilder {
  import opened Wrappers

  /** A read-only view of a computer's parts. */
  datatype Configuration = Configuration(cpu: string, ram: string, storage: string, gpu: Option<string>)

  /** The parts a new computer starts with: three placeholders and no GPU. */
  const Defaults: Configuration :=
    Configuration("cpu - not defined", "ram - not defined", "storage - not defined", None)

  class Computer {
    var cpu: string
    var ram: string
    var storage: string
    var gpu: Option<string>

    constructor()
      ensures cpu == Defaults.cpu && ram == Defaults.ram && storage == Defaults.storage && gpu == None
    {
      cpu := "cpu - not defined";
      ram := "ram - not defined";
      storage := "storage - not defined";
      gpu := None;
    }

    function Snapshot(): (c: Configuration)
      reads this
      ensures c.cpu == cpu && c.ram == ram && c.storage == storage && c.gpu == gpu
    {
      Configuration(cpu, ram, storage, gpu)
    }
  }

  class ComputerBuilder {
    var computer: Computer

    constructor()
      ensures fresh(computer)
      ensures computer.Snapshot() == Defaults
    {
      computer := new Computer();
    }

    /** `setCPU`: changes the CPU only and returns the same builder. */
    method SetCPU(cpu: string) returns (b: ComputerBuilder)
      modifies computer
      ensures b == this && computer == old(computer)
      ensures computer.Snapshot() == old(computer.Snapshot()).(cpu := cpu)
    {
      computer.cpu := cpu;
      b := this;
    }

    /** `setRAM`: changes the RAM only and returns the same builder. */
    method SetRAM(ram: string) returns (b: ComputerBuilder)
      modifies computer
      ensures b == this && computer == old(computer)
      ensures computer.Snapshot() == old(computer.Snapshot()).(ram := ram)
    {
      computer.ram := ram;
      b := this;
    }

    /** `setStorage`: changes the storage only and returns the same builder. */
    method SetStorage(storage: string) returns (b: ComputerBuilder)
      modifies computer
      ensures b == this && computer == old(computer)
      ensures computer.Snapshot() == old(computer.Snapshot()).(storage := storage)
    {
      computer.storage := storage;
      b := this;
    }

    /** `setGPU`: sets the optional GPU only and returns the same builder. */
    method SetGPU(gpu: string) returns (b: ComputerBuilder)
      modifies computer
      ensures b == this && computer == old(computer)
      ensures computer.Snapshot() == old(computer.Snapshot()).(gpu := Some(gpu))
    {
      computer.gpu := Some(gpu);
      b := this;
    }

    /** `build`: the builder's own computer, not a copy. */
    method Build() returns (c: Computer)
      ensures c == computer
    {
      c := computer;
    }
  }

  /** A builder chain `new ComputerBuilder().setCPU(..).setRAM(..)
      .setStorage(..).setGPU(..).build()`, reporting the built parts and
      whether a second `build` hands out the same object. */
  method BuildComputer(cpu: string, ram: string, storage: string, gpu: string)
    returns (parts: Configuration, buildsShareObject: bool)
    ensures parts == Configuration(cpu, ram, storage, Some(gpu))
    ensures buildsShareObject
  {
    var builder := new ComputerBuilder();
    var b1 := builder.SetCPU(cpu);
    var b2 := b1.SetRAM(ram);
    var b3 := b2.SetStorage(storage);
    var b4 := b3.SetGPU(gpu);
    var computer := b4.Build();
    var again := builder.Build();
    parts := computer.Snapshot();
    buildsShareObject := computer == again;
  }

  /** A builder on which only some setters are called keeps the defaults for
      the rest: here only the CPU is set. */
  method BuildCpuOnly(cpu: string) returns (parts: Configuration)
    ensures parts == Defaults.(cpu := cpu)
    ensures parts.gpu.None?
  {
    var builder := new ComputerBuilder();
    var b := builder.SetCPU(cpu);
    var computer := b.Build();
    parts := computer.Snapshot();
  }

  /** The demo's two computers. */
  method DemoScenario() returns (office: Configuration, gamer: Configuration)
    ensures office == Configuration("Intel i7", "16 GB", "1 TB", Some("Nvidia RTX 2080"))
    ensures gamer == Configuration("Intel i9", "64 GB", "10 TB M.2", Some("Nvidia RTX 4090"))
  {
    var same;
    office, same := BuildComputer("Intel i7", "16 GB", "1 TB", "Nvidia RTX 2080");
    gamer, same := BuildComputer("Intel i9", "64 GB", "10 TB M.2", "Nvidia RTX 4090");
  }
}
