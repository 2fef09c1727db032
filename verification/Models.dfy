// The four sequential specifications shipped with the checker.
module Models {
  import opened Base
  import opened Checker

  datatype RegisterInput<T> = Read | Write(value: T)
  datatype RegisterOutput<T> = Value(value: T) | Ok

  function Register<T>(initial: T): Model<T, RegisterInput<T>, RegisterOutput<T>> {
    Model(initial, (s: T, input: RegisterInput<T>) =>
      match input
      case Read => Some((s, RegisterOutput<T>.Value(s)))
      case Write(v) => Some((v, RegisterOutput<T>.Ok)))
  }

  datatype SingleKeyInput<T> = Get | Put(value: T)
  datatype SingleKeyOutput<T> = Found(value: Option<T>) | Done

  function SingleKeyKv<T>(initial: Option<T>): Model<Option<T>, SingleKeyInput<T>, SingleKeyOutput<T>> {
    Model(initial, (s: Option<T>, input: SingleKeyInput<T>) =>
      match input
      case Get => Some((s, SingleKeyOutput<T>.Found(s)))
      case Put(v) => Some((Some(v), SingleKeyOutput<T>.Done)))
  }

  datatype KvInput<K, V> = GetKey(key: K) | PutKey(key: K, value: V)
  datatype KvOutput<V> = FoundKey(value: Option<V>) | DoneKey

  function MultiKeyKv<K, V>(initial: map<K, V>): Model<map<K, V>, KvInput<K, V>, KvOutput<V>> {
    Model(initial, (s: map<K, V>, input: KvInput<K, V>) =>
      match input
      case GetKey(k) => Some((s, KvOutput<V>.FoundKey(if k in s then Some(s[k]) else None)))
      case PutKey(k, v) => Some((s[k := v], KvOutput<V>.DoneKey)))
  }

  datatype AppendLogInput<T> = Append(value: T) | ReadAll
  datatype AppendLogOutput<T> = Index(index: nat) | Entries(entries: seq<T>)

  function AppendOnlyLog<T>(initial: seq<T>): Model<seq<T>, AppendLogInput<T>, AppendLogOutput<T>> {
    Model(initial, (s: seq<T>, input: AppendLogInput<T>) =>
      match input
      case Append(v) => Some((s + [v], AppendLogOutput<T>.Index(|s|)))
      case ReadAll => Some((s, AppendLogOutput<T>.Entries(s))))
  }
}
