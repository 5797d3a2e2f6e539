/** The fixed in-memory data set the application ships with: four clients,
    five pieces of equipment and seven service orders. */
module SampleData {
  import opened Types

  // The address is written as three literals so that proofs about its
  // letters can look at one short piece at a time.
  const AnaSilva := Client("c1", "Ana Silva", "(11) 98765-4321", "ana.silva@email.com",
    "Av. Paulista, 1578 - " + "Bela Vista, São Paulo, " + "SP - 01310-200")
  const CondominioCentral := Client("c2", "Condomínio Central", "(11) 1234-5678", "adm@central.com", "Rua das Flores, 123")
  const LojaDoZe := Client("c3", "Loja do Zé", "(11) 2345-6789", "contato@lojadoze.com", "Av. Principal, 500")
  const HospitalCentral := Client("c4", "Hospital Central", "(11) 3456-7890", "manutencao@hcentral.com", "Rua das Emergências, 789")

  const E1 := Equipment("e1", "Ar Condicionado Central", "Ar Condicionado", "XZ-12345", "AC-5000", Active,
    "Bloco A, Sala 101", "15/01/2022", "10/06/2024", "10/12/2024",
    [ Attachment("a1", "manual_AC-5000.pdf", "1.2 MB", "15/01/2022", Pdf),
      Attachment("a2", "garantia_xz12345.pdf", "350 KB", "15/01/2022", Pdf) ],
    [ ServiceRecord("sr1", "Manutenção Preventiva", "Carlos Silva", "10/06/2024",
        "Limpeza dos filtros e verificação do gás refrigerante. Equipamento operando normalmente."),
      ServiceRecord("sr2", "Reparo no Compressor", "Ana Pereira", "22/02/2024",
        "Substituição do capacitor do compressor. Realizados testes de pressão e temperatura, tudo OK."),
      ServiceRecord("sr3", "Verificação de Ruído", "Carlos Silva", "15/11/2023",
        "Foi identificado um ruído na unidade externa. Realizado o reaperto dos parafusos da carcaça, problema resolvido.") ])
  const E2 := Equipment("e2", "Bomba Hidráulica P-50", "Bomba", "BH-98765", "P-50", Active,
    "Casa de Máquinas 1", "20/03/2023", "01/07/2024", "01/01/2025", [], [])
  const E3 := Equipment("e3", "Gerador de Energia G-200", "Gerador", "GE-54321", "G-200", Inactive,
    "Subsolo", "10/10/2020", "15/05/2024", "15/11/2024", [], [])
  const E4 := Equipment("e4", "Ar Condicionado Split", "Ar Condicionado", "SS-WIND12", "Samsung WindFree 12000 BTU", Active,
    "Sala da Diretoria", "05/02/2023", "05/06/2024", "05/12/2024", [], [])
  const E5 := Equipment("e5", "Geladeira Frost Free", "Refrigeração", "BF-INV540L", "Brastemp Inverse 540L", Active,
    "Copa", "12/11/2022", "N/A", "N/A", [], [])

  const Equipments: seq<Equipment> := [E1, E2, E3, E4, E5]

  const SO1 := ServiceOrder("so1", "2024-1138", CondominioCentral, ForStart, "Manutenção preventiva ar condicionado",
    "Hoje", "14:00h", "Ar condicionado não gela", "24/07/2024", [E4], [])
  const SO2 := ServiceOrder("so2", "2024-1139", LojaDoZe, Started, "Reparo de vazamento",
    "Hoje", "16:30h", "Ar condicionado não gela", "24/07/2024", [], [])
  const SO3 := ServiceOrder("so3", "2024-1137", HospitalCentral, ForQuote, "Reparo em gerador de emergência",
    "Hoje", "11:00h", "Ar condicionado não gela", "24/07/2024", [E3], [])
  const SO4 := ServiceOrder("so4", "2024-1140", AnaSilva.(name := "Padaria Pão Quente", address := "Rua do Comércio, 321"),
    QuoteSent, "Conserto de forno industrial", "", "Aguardando aprovação", "Ar condicionado não gela",
    "25/07/2024 de manhã (09:00 - 12:00)", [], [])
  const SO5 := ServiceOrder("so5", "2024-1141", AnaSilva.(name := "Academia Corpo em Forma", address := "Avenida de Esportes, 999"),
    AwaitingParts, "Troca de motor de esteira", "Peças pedidas em 20/07", "", "Ar condicionado não gela",
    "25/07/2024", [], [])
  const SO6 := ServiceOrder("so6", "2024-1135", AnaSilva.(name := "Escritório Advogados", address := "Praça da Sé, 45"),
    Completed, "Instalação de novas luminárias", "Ontem", "10:00h", "Ar condicionado não gela", "23/07/2024", [], [])
  const SO7 := ServiceOrder("so7", "2024-152", AnaSilva, Pending, "Manutenção Preventiva", "", "",
    "O aparelho liga, mas o ar não sai frio. Foi feita a limpeza do filtro recentemente, mas o problema persiste.",
    "Período da manhã (09:00 - 12:00)", [E4, E5],
    [ HistoryEntry("h1", "Técnico atribuído", "24/07/2024 às 14:30"),
      HistoryEntry("h2", "Ordem de Serviço criada", "24/07/2024 às 11:15") ])

  const ServiceOrders: seq<ServiceOrder> := [SO1, SO2, SO3, SO4, SO5, SO6, SO7]
}
