/** The entities the client receives from its REST store (src/types). Dates
    (`fecha`, `deadline`) are calendar days counted from 1970-01-01 UTC; an
    absent or empty date string is `None`. */
module Domain {
  import opened Wrappers

  type Day = int

  datatype ProjectStatus = Activo | Archivado

  datatype Priority = Baja | Media | Alta

  datatype TaskStatus = Pendiente | EnProgreso | Completada

  /** `Project` (src/types/Project.ts). */
  datatype Project = Project(
    id: Option<int>,
    name: string,           // nombre
    description: string,    // descripcion
    color: string,
    status: ProjectStatus,  // estado
    createdAt: Option<string>,
    updatedAt: Option<string>)

  /** `Task` (src/types/Task.ts); the project is embedded, as in the JSON. */
  datatype Task = Task(
    id: Option<int>,
    project: Project,       // proyecto
    name: string,           // nombre
    description: string,    // descripcion
    priority: Priority,     // prioridad
    status: TaskStatus,     // estado
    deadline: Option<Day>,
    createdAt: Option<string>,
    updatedAt: Option<string>,
    subtasks: Option<seq<Task>>,  // subtareas
    parent: Option<Task>)         // tareaPadre

  /** `TimeRecord` (src/types/TimeRecord.ts). */
  datatype TimeRecord = TimeRecord(
    id: Option<int>,
    task: Task,             // tarea
    minutes: int,           // tiempoDedicado
    date: Day,              // fecha
    notes: Option<string>,  // notas
    createdAt: Option<string>)

  /** A select-box filter: the option 'all', or one chosen value. */
  datatype Choice<T> = All | Only(value: T)

  predicate Accepts<T(==)>(c: Choice<T>, x: T)
  {
    c.All? || c.value == x
  }
}
